# Ramflux: verified models of six stateful components

This project models the parts of Ramflux that hold hard state or a hard transformation, and
proves what the code relies on. `dafny verify dfyconfig.toml` checks all of it (Dafny 4.11).

1. **Per-source connection limiter** of the federation listener. `SourceLimits` gives each
   operation as a function on a table of accounts, prefixes and two idle queues.
   `SourceTable.PublicSourceLimits` is the limiter as it runs, with the two queues threaded
   through the table as doubly linked lists; every method is proved to act on the table as the
   function acts on its view. `SourceLimitsInvariant`, `SourceLimitsRuns`, `SourceLimitsRates`
   and `SourceLimitsRenewal` prove what every interleaving of connects, requests and drops keeps.
   Tokens are reals, and the clock is the sequence of the events' times.
2. **Write-ahead output slot** of the agent host. `WriteAhead` is an automaton over everything
   that happens to the slot: assignments in memory, durable writes, requests, answers, crashes.
   `AgentHost.Host` is the host's code over a bus and a store that may answer anything; each
   method extends a legal run of the automaton, and the output loop is proved to end.
   `PlanDelivery` joins the slot with the surfaces of part 3: in every run whose answers are
   true, a reply goal that is delivered to its end is reached.
3. **Surface plans.** `Surface` applies commands to a conversation surface, with versions,
   hash guards, finished streams and the snapshot limits; the snapshot hash is an injective
   function of the content. `SurfacePlan` and the modules after it re-derive what is left of a
   reply from whatever state the surface is in, and prove where that leads. `Chunking` cuts
   texts on UTF-8 boundaries (section 3 of RFC 3629).
4. **PRX engine and human approval.** `Prx` holds the engine's per-conversation state,
   `ApprovalTrace` the rules of approval as an automaton, `ApprovalBridges` what couples host and
   engine, `ApprovalHost.Agent` the two together, with engine and bus answering in any way and
   checkpoints to restart from.
5. **RFS1 codec.** `Rfs1` has the schema-driven encoder and the separately written scanner as
   methods, and a reference reader; `Rfs1Agreement` proves where the two agree.
6. **Spool retry, trust state, demo snapshots.** `Spool`, `TrustState` and `DemoSnapshots`.

## What was found

- *Prefix rates* (`SourceLimitsRenewal.CarriesIff`): a prefix is not bounded by burst and rate
  across an event that evicts its only source for a newcomer of the same prefix, because the
  prefix is removed and made anew with a full bucket (`SourceLimitsRenewal.RenewedPrefixExceeds`).
  Everywhere else the bound holds (`SourceLimitsRates.RateBound`).
- *Scanner and encoder* (`Rfs1Agreement.EncodableIff`): they agree exactly on the bytes in which no
  optional holds, as present, an absent optional; `01 00` scans there but is not an encoding
  (`Rfs1Agreement.NestedOptionalDisagrees`).
- *Re-derived plans* (`SurfacePlanGoal.RederiveReaches`): the commands go through exactly when
  three limits leave room; a longer old fallback can refuse the first append
  (`SurfaceReplyLimits.OldFallbackRefuses`). Replies that set the fallback last, as the
  built-in engine's do, never meet that limit (`SurfaceReplyLimits.ReplyGoesThrough`).
- *Bridge implies busy engine* (`ApprovalBridges.IdleIff`): false exactly for bridges whose
  denial did not reach the engine, which forgets a declined decision even then
  (`ApprovalBridges.DenialLost`), and for bridges opened for a decision the engine has already
  dropped (`ApprovalBridges.OpenedWithoutDecision`), while no other turn is under way.
- *Clean-up reaches every bridge* (`ApprovalHost.Agent.CleanUp`): false exactly for bridges whose
  session the engine no longer has; a lost bridge gets there when a turn finds its session
  unknown and no new one can be made (`ApprovalBridges.BeyondCleanUp`).
- *Restart* (`ApprovalHost.Agent.Restart`): refused exactly when a stored grant is longer than
  1024 bytes, which a grant made up from an approval id of more than 1018 bytes is
  (`ApprovalBridges.UnstorableGrant`).
- *Output slot* (`WriteAhead.RetiredMayReturn`): a record retired in memory returns after a
  crash when the write that retires it is refused as too large; `recover_pending` still
  answers Ok, and the slot in memory is empty.
- *Spool numbers* (`Spool.RemovesOnlyListed`): a number is free again once its forward is gone, so
  a retention sweep requested over the mesh and an arrival during a pass can make the pass remove
  a forward it never tried (`Spool.SweptMeanwhile`). Without such a sweep no forward is lost
  (`Spool.Store.RetryPass`).
- *Demo recovery* (`DemoSnapshots.InterruptAndRecover`): refused exactly when a repeated `up` or
  a `rollback` stops after it began to prune and before its marker is gone, because the one
  snapshot it prunes is the one to return to (`DemoSnapshots.PrunesPrevious`); `upgrade` spares
  it. `DemoSnapshots.Stranded` gets there from an empty directory.

## Model

| member | source | states |
|---|---|---|
| `SourceLimits.SameSource` | apps/ramflux-federation/src/public_source_limits.rs:205-227 | two addresses are one source exactly when they are equal after IPv4-mapped addresses are folded into IPv4, or share their first 64 bits |
| `SourceTable.PublicSourceLimits.constructor` | apps/ramflux-federation/src/public_source_limits.rs:373-379 | the new table is sound, its view empty, and no permit is out |
| `SourceTable.PublicSourceLimits.RemoveIdle` | apps/ramflux-federation/src/public_source_limits.rs:278-302 | unlinking through previous, next, head and tail removes exactly this key from its queue; the other queue and the rest of the order stay |
| `SourceTable.PublicSourceLimits.PushIdle` | apps/ramflux-federation/src/public_source_limits.rs:304-320 | the key leaves the queue it is in and becomes the tail of the named one |
| `SourceTable.PublicSourceLimits.EvictIdle` | apps/ramflux-federation/src/public_source_limits.rs:322-346 | the victim is the staler expired head, else the refilled head, else the limited head; it leaves table, queue and prefix counts, and a prefix with nothing left goes |
| `SourceTable.PublicSourceLimits.AcquireConnection` | apps/ramflux-federation/src/public_source_limits.rs:403-503 | result and new table are those of the function on the view, for every branch of admission, rates and caps; the linked lists and the whole invariant over live permits are kept, with the granted permit added |
| `SourceTable.PublicSourceLimits.AllowRequest` | apps/ramflux-federation/src/public_source_limits.rs:505-521 | result and new table are those of the function on the view, and the whole invariant over live permits is kept |
| `SourceTable.PublicSourceLimits.ReleaseConnection` | apps/ramflux-federation/src/public_source_limits.rs:523-552 | for a live permit the new table is that of the function on the view, and the whole invariant holds with the permit gone |
| `SourceTable.UnlinkedChain` | apps/ramflux-federation/src/public_source_limits.rs:278-302 | taking one entry out of a doubly linked chain gives the chain of the sequence without it, with the right head and tail |
| `SourceTable.AppendedChain` | apps/ramflux-federation/src/public_source_limits.rs:304-320 | putting an unchained entry at the tail gives the chain of the longer sequence |
| `SourceLimitsInvariant.AcquireKeeps` | apps/ramflux-federation/src/public_source_limits.rs:403-503 | every acquire keeps the whole invariant: queues hold exactly the sources without connections, counters equal live permits and their sums per prefix, caps and table size hold, buckets stay between empty and full |
| `SourceLimitsInvariant.RequestKeeps` | apps/ramflux-federation/src/public_source_limits.rs:505-521 | every request keeps the whole invariant |
| `SourceLimitsInvariant.ReleaseKeeps` | apps/ramflux-federation/src/public_source_limits.rs:523-552 | releasing a live permit keeps the whole invariant, and neither counter it lowers is zero |
| `SourceLimitsInvariant.VictimIdle` | apps/ramflux-federation/src/public_source_limits.rs:322-346 | an evicted source holds no connection |
| `SourceLimitsRuns.RunKeeps` | apps/ramflux-federation/src/public_source_limits.rs:403-552 | the invariant holds in every state of every run |
| `SourceLimitsRuns.RefusedForRoom` | apps/ramflux-federation/src/public_source_limits.rs:414-419 | a refusal for lack of room happens exactly when the table is full and every tracked source holds a live permit |
| `SourceLimitsRuns.NeverRefusedForRoom` | apps/ramflux-federation/src/public_source_limits.rs:84-91 | it never happens while live permits stay below the table capacity |
| `SourceLimitsRuns.EvictionOrder` | apps/ramflux-federation/src/public_source_limits.rs:322-346 | when no head has expired a refilled source is evicted before any limited one, and each queue is served first in, first out |
| `SourceLimitsRates.RateBound` | apps/ramflux-federation/src/public_source_limits.rs:420-481 | with a nondecreasing clock, over any window within one lifetime of a bucket, the connection that makes it included, what a source, a prefix or a source's requests are charged, and so granted, is at most burst plus rate times the length of the window; a prefix lives as long as any of its sources |
| `SourceLimitsRates.MeterMoves` | apps/ramflux-federation/src/public_source_limits.rs:574-578 | one event leaves a bucket as it is, refills it to its time, or takes exactly one token of the refilled bucket, starting from the bucket it finds or, for an entry it makes, a full one |
| `SourceLimitsRates.GrantCharges` | apps/ramflux-federation/src/public_source_limits.rs:444-502 | no connection and no request is granted without a token of every bucket concerned |
| `SourceLimitsRenewal.RenewedIff` | apps/ramflux-federation/src/public_source_limits.rs:322-441 | a prefix in the table before and after an event is made anew exactly when none of its sources stays tracked: a full table evicts its only source for a newcomer of the same prefix |
| `SourceLimitsRenewal.CarriesIff` | apps/ramflux-federation/src/public_source_limits.rs:334-481 | a prefix's bucket is moved by refill and charge alone exactly when the event does not make the prefix anew, or finds the bucket full again |
| `SourceLimitsRenewal.RenewedGrants` | apps/ramflux-federation/src/public_source_limits.rs:334-503 | a prefix made anew grants, however empty its bucket was |
| `SourceLimitsRenewal.RenewedPrefixExceeds` | apps/ramflux-federation/src/public_source_limits.rs:334-441 | a run from the empty table in which a prefix with burst one is granted two connections at one instant |
| `WriteAhead.SentWriteAhead` | apps/ramflux-agent-host/src/runner_output.rs:59-151 | in every legal run, every request is the due output of the record durable at that moment, and all earlier outputs of its batch were accepted before it, in order |
| `WriteAhead.CrashAnywhere` | apps/ramflux-agent-host/src/runner.rs:80-113 | a crash after any prefix of a run leaves a legal run whose live record is the durable one |
| `WriteAhead.AfterCrash` | apps/ramflux-agent-host/src/runner_refusal.rs:88-169 | what is found after a crash is sent again under the same operation id, derived anew, marked as refused, or retired |
| `WriteAhead.FewReplans` | apps/ramflux-agent-host/src/runner_refusal.rs:57-87 | an action or plan is derived anew at most twice |
| `WriteAhead.SameBatch` | apps/ramflux-agent-host/src/runner_output.rs:152-160 | a record gives way to that of another event only after being retired; attempts never go down |
| `WriteAhead.RunSound` | apps/ramflux-agent-host/src/runner_output.rs:59-151 | the delivered part of a batch, the due output and the rest always make up the whole batch |
| `WriteAhead.RetiredMayReturn` | apps/ramflux-agent-host/src/checkpoint.rs:161-186 | a record retired in memory comes back after a crash if the retiring write did not happen, and does not if it did |
| `AgentHost.Host.Save` | apps/ramflux-agent-host/src/checkpoint.rs:161-186 | a write that is too large changes nothing, one that fails may or may not have happened, a finished one makes memory durable |
| `AgentHost.Host.RememberAction` | apps/ramflux-agent-host/src/runner_policy.rs:23-30 | a new key is appended and only the oldest dropped, when 2048 are there; a known key changes nothing; keys stay distinct |
| `AgentHost.Host.CompletePending` | apps/ramflux-agent-host/src/runner_output.rs:152-160 | the slot is empty, the cursor at least at the event, the action remembered |
| `AgentHost.Host.StopOutput` | apps/ramflux-agent-host/src/runner_refusal.rs:10-23 | the slot is emptied with the refusal recorded |
| `AgentHost.Host.DeriveGoal` | apps/ramflux-agent-host/src/runner_refusal.rs:129-143 | what a goal derives is the re-derivation of its plan on the surface as it was found, numbered from the version after it; more than 96 commands are refused |
| `AgentHost.Host.RederivePending` | apps/ramflux-agent-host/src/runner_refusal.rs:120-169 | for a goal the new record is exactly the re-derived batch and is saved before the loop goes on; it ends only with a refusal or because nothing is left to re-derive; a record without action or plan is retired |
| `AgentHost.Host.ResumeRefused` | apps/ramflux-agent-host/src/runner_refusal.rs:88-119 | a marked record becomes a resynchronisation, a new batch, or is retired; a resynchronisation is not repeated while out of sync |
| `AgentHost.Host.HandleRefusal` | apps/ramflux-agent-host/src/runner_refusal.rs:57-87 | exactly stale and out-of-sync refusals of a text or a surface send, with attempts left if it is derived, are marked and retried; any other retires the record with its code; every retry brings the loop closer to its end |
| `AgentHost.Host.Accepted` | apps/ramflux-agent-host/src/runner_output.rs:122-150 | an accepted output advances the batch by exactly one, ends it when it was the last, or after a resynchronisation derives it anew |
| `AgentHost.Host.Round` | apps/ramflux-agent-host/src/runner_output.rs:59-151 | one round of the loop keeps the run legal and, when it asks for another, is closer to the end |
| `AgentHost.Host.RecoverOutputs` | apps/ramflux-agent-host/src/runner_output.rs:59-151 | the loop ends, on attempts left, then stage, then outputs left; Ok leaves the slot empty |
| `AgentHost.Host.RecoverPending` | apps/ramflux-agent-host/src/runner_output.rs:46-58 | Ok means the slot is empty; only errors that stop or reconnect the host, or a write too large, are passed on |
| `AgentHost.Host.constructor` | apps/ramflux-agent-host/src/runner.rs:28-59 | a process on what an earlier one left, wherever that stopped, continues its run |
| `AgentHost.Host.Start` | apps/ramflux-agent-host/src/runner.rs:80-113 | Ok means a cursor and an empty slot; the checkpoint is saved before anything is sent |
| `AgentHost.Host.Deliver` | apps/ramflux-agent-host/src/runner.rs:476-491 | a batch enters an empty slot, is saved, and only then delivered |
| `AgentHost.Host.EmitAction` | apps/ramflux-agent-host/src/runner_surface.rs:10-90 | an action already handled changes nothing; any other is answered through the slot |
| `AgentHost.Host.ResyncOwned` | apps/ramflux-agent-host/src/runner_surface.rs:91-137 | a resynchronisation enters an empty slot, is saved, and only then sent |
| `AgentHost.Host.FinishEvent` | apps/ramflux-agent-host/src/runner_policy.rs:31-64 | an error that neither stops nor reconnects the host empties the slot and moves the cursor past the event |
| `AgentHost.Host.Apply` | apps/ramflux-agent-host/src/runner.rs:119-183 | an event at or below the cursor changes nothing; the cursor never goes back and Ok leaves it at the event with an empty slot |
| `AgentHost.Host.Poll` | apps/ramflux-agent-host/src/runner_deferred.rs:74-139 | the cursor never goes back and Ok leaves the slot empty, whatever deferred work there is |
| `PlanDelivery.RunGood` | apps/ramflux-agent-host/src/runner_output.rs:7-45 | in every run whose answers are true, whatever crashes and other writers there are, a goal's batch is the reply it was made from or its re-derivation on the surface at the version before the batch, and what was accepted of it stands in the surface's history under its versions |
| `PlanDelivery.GoalReached` | apps/ramflux-agent-host/src/runner_output.rs:122-160 | when the last output of a goal's batch is accepted, the surface at that version has the planned content and is closed as planned, and every planned stream is finished if the batch was re-derived or is a reply |
| `PlanDelivery.FoundReached` | apps/ramflux-agent-host/src/runner_refusal.rs:129-156 | where nothing is left to re-derive, the surface as it was seen is on the goal in content, closing and finished streams |
| `Surface.ApplyKeeps` | crates/ramflux-protocol/src/a2ui_state/state.rs:105-152 | an accepted command leads to a consistent state: acceptable content, finished streams still finished with the same text, version one higher |
| `Surface.ShorterAccepted` | crates/ramflux-protocol/src/a2ui_state/snapshot.rs:24-59 | cutting texts short keeps a snapshot within all its checks |
| `SurfacePlanner.CheckStreams` | apps/ramflux-agent-host/src/surface_plan.rs:69-83 | the loop finds the first stream that is missing or has moved away from the target, else completes a copy of the content |
| `SurfacePlanner.StreamAppends` | apps/ramflux-agent-host/src/surface_plan.rs:99-111 | the loop over pieces gives the appends of a suffix, the last one marked final, and one empty final append when only the end is missing |
| `SurfacePlanner.AllStreams` | apps/ramflux-agent-host/src/surface_plan.rs:84-114 | the loop gives the commands of all streams in order, and the content they lead to |
| `SurfacePlanner.Rederive` | apps/ramflux-agent-host/src/surface_plan.rs:54-136 | the method returns exactly the re-derivation, for every view, error by error |
| `SurfacePlanRuns.TrackIff` | apps/ramflux-agent-host/src/surface_plan.rs:54-136 | re-derivation succeeds exactly on the states whose texts begin the planned ones, whose finished streams lack nothing, and which otherwise differ in nothing but the fallback |
| `SurfacePlanGoal.Step` | apps/ramflux-agent-host/src/surface_plan.rs:84-135 | the first command of a re-derived batch is accepted with a feasible rest exactly when the batch is feasible, and a new re-derivation then asks for exactly the rest |
| `SurfacePlanGoal.Completes` | apps/ramflux-agent-host/src/surface_plan.rs:54-136 | the re-derived commands are all accepted exactly when the limits leave room, and end on the target |
| `SurfacePlanGoal.Resumes` | apps/ramflux-agent-host/src/surface_plan.rs:54-136 | after any number of the commands a re-derivation asks for exactly the others |
| `SurfacePlanGoal.RederiveReaches` | apps/ramflux-agent-host/src/surface_plan.rs:54-136 | for every view on which re-derivation succeeds: accepted throughout exactly when feasible, then content, closed flag and finished streams are as planned and nothing is left to re-derive |
| `SurfaceBatchSize.BatchFits` | apps/ramflux-agent-host/src/runner_output.rs:7-14 | whatever the state, a re-derived plan has at most 70 commands, so the limit of 96 per batch never refuses it |
| `SurfaceReplies.NewPlan` | apps/ramflux-agent-host/src/surface_plan.rs:20-53 | a plan is made exactly when the commands can be played on an empty surface; it is where they lead, with the last end mark of each stream, and too large exactly when a limit stopped them |
| `SurfaceReplies.ReplyResumes` | apps/ramflux-agent-host/src/surface_plan.rs:20-136 | after any of the commands a plan was made from, re-derivation succeeds |
| `SurfaceReplyLimits.ReplyGoesThrough` | apps/ramflux-agent-host/src/surface_plan.rs:20-136 | a reply whose appends precede its fallback goes through from every point, but for the version counter |
| `SurfaceReplyLimits.OldFallbackRefuses` | apps/ramflux-agent-host/src/surface_plan.rs:20-128 | a concrete plan made from two commands and a consistent surface on which its re-derivation succeeds while the surface refuses the first command of it |
| `RuleReplies.Intents` | apps/ramflux-agent-host/src/engine.rs:233-276 | the built-in engine creates the surface, streams the reply in pieces ending with the final mark, sets the fallback, and closes unless there are choices |
| `RuleReplies.ResumableReply` | apps/ramflux-agent-host/src/engine.rs:233-276 | its replies are of the kind that goes through from every point |
| `Chunking.Chunks` | apps/ramflux-agent-host/src/engine.rs:346-358 | pieces concatenate to the text, are nonempty valid UTF-8 of at most max(size, 4) bytes, all but the last at least three bytes short of that, hence few |
| `Chunking.Cut` | apps/ramflux-agent-host/src/engine.rs:350-353 | stepping back finds the last character boundary within the limit |
| `Chunking.PiecesChunked` | apps/ramflux-agent-host/src/engine.rs:346-358 | the greedy cutting has all promised properties for every valid text |
| `Utf8.BoundaryNear` | apps/ramflux-agent-host/src/engine.rs:350-353 | in valid UTF-8 a character boundary is never more than three bytes back |
| `Utf8.DecodeEncode` | scripts/dm_fs_v3_oracle.py:184-186 | decoding the encoding of any scalars gives them back |
| `Utf8.EncodeDecode` | scripts/dm_fs_v3_oracle.py:184-186 | strictly decoded bytes are the encoding of what they decode to |
| `Prx.RestoreAccepts` | apps/ramflux-agent-host/src/prx.rs:589-636 | whatever a sound engine saves passes every check of a restore, with the same conversations and no deadline later |
| `Prx.SubmittedOk` | apps/ramflux-agent-host/src/prx.rs:181-250 | whatever the answers, a turn starts as one job of this conversation with its message and deadline, or leaves nothing but perhaps another session |
| `ApprovalTrace.ApprovedProperly` | apps/ramflux-agent-host/src/runner_approval.rs:176-259 | in every run an approving decision is taken only for a bridge proposed and then awaiting its decision, before its deadline, on a row for its grant, task and step |
| `ApprovalTrace.DeniedProperly` | apps/ramflux-agent-host/src/runner_approval.rs:209-254 | a denial is passed on only for a bridge awaiting its decision, before its deadline, on a row for its grant, task and step |
| `ApprovalTrace.OneSuccess` | apps/ramflux-agent-host/src/prx.rs:353-370 | between two approvals of a conversation, the first answered with success, its bridge was dropped |
| `ApprovalTrace.TriesAfterSuccess` | apps/ramflux-agent-host/src/prx.rs:372-404 | resuming is tried only after a success and at most three times |
| `ApprovalTrace.History` | apps/ramflux-agent-host/src/runner_approval.rs:364-369 | every bridge was proposed once with the identity it still has and, if decided, passed through awaiting |
| `ApprovalTrace.LostIff` | apps/ramflux-agent-host/src/runner_approval.rs:24-259 | a bridge is lost exactly when the record tells of a denial that did not reach the engine, or of an opening without the decision, with nothing settling it since |
| `ApprovalBridges.IdleIff` | apps/ramflux-agent-host/src/prx.rs:468-473 | in every state a host step leaves, a bridge has an idle engine exactly when the record tells that its decision was lost and no other turn is under way |
| `ApprovalBridges.NoLossAllBusy` | apps/ramflux-agent-host/src/prx.rs:468-473 | where the record tells of no loss, every bridge has a busy engine and is among the active conversations |
| `ApprovalBridges.DeniedIdle` | apps/ramflux-agent-host/src/prx.rs:338-352 | a denial leaves the engine idle however it is answered, so the bridge is idle exactly when it stays |
| `ApprovalBridges.DenialLost` | apps/ramflux-agent-host/src/runner_approval.rs:231-241 | from a concrete coupled state, a denial that times out leaves the bridge beside an idle engine |
| `ApprovalBridges.OpenedWithoutDecision` | apps/ramflux-agent-host/src/runner_approval.rs:66-114 | from a concrete state, a standing grant declines the decision, the reply fails, and when the event comes again a bridge opens beside an idle engine |
| `ApprovalBridges.ReachedIff` | apps/ramflux-agent-host/src/prx.rs:638-649 | a conversation is among those clean-up walks over exactly when the engine has a session for it |
| `ApprovalBridges.BeyondCleanUp` | apps/ramflux-agent-host/src/prx.rs:210-239 | a lost denial, then a turn answered with no such session and no new session made, leave a bridge that clean-up does not reach |
| `ApprovalBridges.GrantFits` | apps/ramflux-agent-host/src/runner_approval.rs:92-97 | a bridge's grant passes the check of a restart exactly when a usable one was requested or the approval id has at most 1018 bytes |
| `ApprovalBridges.UnstorableGrant` | apps/ramflux-agent-host/src/runner_approval.rs:92-111 | a concrete approval id with which a bridge opens that no restart accepts |
| `ApprovalHost.Agent.SubmitMessage` | apps/ramflux-agent-host/src/prx.rs:203-250 | session, request, new session after a not-found and second request are those of the function on the engine's state, answer by answer; nothing of another conversation changes |
| `ApprovalHost.Agent.PollJobs` | apps/ramflux-agent-host/src/prx.rs:514-557 | each running job stays or ends in exactly one event, an approval together with its decision; other conversations do not change |
| `ApprovalHost.Agent.JobResult` | apps/ramflux-agent-host/src/prx.rs:252-321 | a job past its deadline times out, no event comes exactly while it runs or cannot be asked for, a text is a reply only if short and safe, a question only if valid and in time, and never under full authorization |
| `ApprovalHost.Agent.Decline` | apps/ramflux-agent-host/src/prx.rs:338-352 | a declined decision is forgotten even when the engine cannot be reached |
| `ApprovalHost.Agent.ResumeApproved` | apps/ramflux-agent-host/src/prx.rs:372-404 | one to three tries, all noted |
| `ApprovalHost.Agent.Approve` | apps/ramflux-agent-host/src/prx.rs:323-370 | success gives a job in place of the decision; when the approving request is not answered nothing has changed |
| `ApprovalHost.Agent.CancelEngine` | apps/ramflux-agent-host/src/prx.rs:579-587 | nothing of the conversation is left and no other is touched |
| `ApprovalHost.Agent.Abandon` | apps/ramflux-agent-host/src/runner_approval.rs:261-291 | the bridge is gone and the engine idle, for this conversation only |
| `ApprovalHost.Agent.CompleteResumed` | apps/ramflux-agent-host/src/runner_approval.rs:370-393 | only a resumed bridge is closed; one still undecided stays as it is |
| `ApprovalHost.Agent.DriveApproved` | apps/ramflux-agent-host/src/runner_approval.rs:212-230 | an approval ends in a resumed bridge with a running job, in no bridge, or leaves both sides as they were |
| `ApprovalHost.Agent.DriveDenied` | apps/ramflux-agent-host/src/runner_approval.rs:212-254 | a denial is recorded with the engine's answer: reached, the bridge goes; not reached, the bridge stays, is lost, and the engine is idle |
| `ApprovalHost.Agent.DriveApproval` | apps/ramflux-agent-host/src/runner_approval.rs:176-259 | driving one bridge keeps all others, and loses it only with a recorded denial that did not reach the engine |
| `ApprovalHost.Agent.DriveApprovals` | apps/ramflux-agent-host/src/runner_approval.rs:147-175 | after driving all bridges the coupling holds again for every one of them and none is new |
| `ApprovalHost.Agent.StartApproval` | apps/ramflux-agent-host/src/runner_approval.rs:24-114 | what an approval event does without a bridge is the function of the answers; a bridge opens at most once per conversation, and is lost exactly when the engine does not hold its decision |
| `ApprovalHost.Agent.HandleEvent` | apps/ramflux-agent-host/src/runner.rs:257-344 | an engine event changes its own conversation only and is acknowledged when done; a declined one whose reply fails stays, without its decision |
| `ApprovalHost.Agent.Poll` | apps/ramflux-agent-host/src/runner_deferred.rs:74-101 | after a poll, a bridge has an idle engine exactly when its decision was lost and no other turn is under way; no event is left unread |
| `ApprovalHost.Agent.Message` | apps/ramflux-agent-host/src/runner.rs:188-255 | a turn is accepted exactly when the engine is idle and takes it; a conversation with a bridge starts one only if its decision was lost, and the acceptance closes no task |
| `ApprovalHost.Agent.CleanUp` | apps/ramflux-agent-host/src/runner.rs:392-409 | once walked through, a bridge of a conversation that is gone is left exactly when the engine has no session for it; conversations that stay are not touched |
| `ApprovalHost.Agent.Lock` | apps/ramflux-agent-host/src/runner.rs:143-154 | after a lock no bridge and no conversation of the engine is left |
| `ApprovalHost.Agent.Restart` | apps/ramflux-agent-host/src/runner.rs:28-59 | a restart succeeds exactly when every stored grant has at most 1024 bytes, and is then consistent, with no deadline later |
| `Rfs1.Encode` | scripts/dm_fs_v3_oracle.py:128-139 | the method computes the encoding of a record, or fails where the schema forbids it |
| `Rfs1.Scan` | scripts/dm_fs_v3_oracle.py:142-159 | the cursor scanner accepts exactly the byte strings the reference reader decodes to their end, and terminates |
| `Rfs1.CheckValue` | scripts/dm_fs_v3_oracle.py:162-186 | the value check accepts exactly what the reference reader decodes for the kind |
| `Rfs1.ReadsBackRecord` | scripts/dm_fs_v3_oracle.py:128-139 | for every schema, decoding the encoding of a record gives it back |
| `Rfs1Agreement.WritesBackRecord` | scripts/dm_fs_v3_oracle.py:142-159 | whatever decodes and holds no absent optional inside a present one is the encoding of the result |
| `Rfs1.UniqueTree` | scripts/dm_fs_v3_oracle.py:128-159 | no byte string is the encoding of two values |
| `Rfs1Agreement.EncodableIff` | scripts/dm_fs_v3_oracle.py:95-186 | for every schema and byte string: it is an encoding exactly when the scanner accepts it and nowhere in it an optional holds, as present, an absent optional |
| `Rfs1Agreement.RecordAgreement` | scripts/dm_fs_v3_oracle.py:128-159 | where no type within reach has an optional directly inside an optional, the scanner accepts exactly the encodings |
| `Rfs1Agreement.PresentDisagrees` | scripts/dm_fs_v3_oracle.py:95-186 | a type with an encodable value in which, at any depth, such an optional is present has bytes that scan but are no encoding |
| `Rfs1Agreement.NestedOptionalDisagrees` | scripts/dm_fs_v3_oracle.py:142-169 | sixteen concrete bytes that scan for a record with such a field and encode nothing |
| `Spool.Store.SpoolForward` | crates/ramflux-node-core/src/federation_store.rs:225-267 | a forward goes to the end of its peer's queue with the next number |
| `Spool.Store.Sweep` | crates/ramflux-node-core/src/federation_store/retention.rs:34-62 | in every queue exactly the forwards that still have time stay, in their order, and exactly the others are told as expired |
| `Spool.KeptIff` | crates/ramflux-node-core/src/federation_store/retention.rs:45-53 | a forward is kept exactly when it was there and still has time |
| `Spool.Store.ListPending` | crates/ramflux-node-core/src/federation_store.rs:303-327 | a listing takes each peer's forwards from the front of its queue, and holds as many as limit and table allow |
| `Spool.Store.Attempt` | apps/ramflux-federation/src/flow.rs:312-329 | a try delivers, dead-letters or defers the first forward of a queue, a deferral counted as an attempt, or changes nothing when the store fails |
| `Spool.Store.RetryPass` | apps/ramflux-federation/src/flow.rs:293-332 | a pass only adds to the history; per peer only expired forwards lapse, a beginning of the queue is resolved, then at most one forward is deferred, and what was not resolved is still there before whatever arrived, with arrivals, store failures and shutdown at any point |
| `Spool.RemovesOnlyListed` | crates/ramflux-node-core/src/federation_store.rs:329-348 | removing a listed forward by its number takes nothing else away exactly when it still waits or its number was not given again |
| `Spool.SweptMeanwhile` | crates/ramflux-node-core/src/federation_store.rs:704-718 | a concrete sweep and arrival between listing and removal after which the removal takes away a forward never tried |
| `Spool.InOrder` | apps/ramflux-federation/src/flow.rs:293-332 | over all passes a peer's forwards are resolved in the order they were spooled, none is both delivered and dead-lettered, and what waits was spooled later |
| `TrustState.RunSound` | apps/ramflux-federation/src/state.rs:27-63 | under any interleaving published values are the results of successive updates, each from the value before, and snapshots see them in that order |
| `TrustState.PublishedWasStored` | apps/ramflux-federation/src/state.rs:41-63 | what is published was stored first and computed from exactly what it replaces |
| `TrustState.OthersKeepCurrent` | apps/ramflux-federation/src/state.rs:41-63 | no step but publishing changes what readers see |
| `DemoSnapshots.Node.Capture` | deploy/scripts/demo-node-config.py:168-193 | the snapshot is all managed files with the pending owner record, and appears whole or not at all |
| `DemoSnapshots.Node.Restore` | deploy/scripts/demo-node-config.py:196-218 | run to its end, the managed files are exactly the snapshot's, from whatever an interrupted run left |
| `DemoSnapshots.Node.Prune` | deploy/scripts/demo-node-config.py:252-277 | only snapshots outside the last four and the current one go; all of those are gone once it has made as many steps as there are, and none before the first |
| `DemoSnapshots.Node.FirstUp` | deploy/scripts/demo-node-config.py:526-606 | the first up, stopped at any point, leaves a history of its one snapshot when committed; it declines where a pending record is left; what an interrupted one leaves can be undone |
| `DemoSnapshots.Node.UndoFirst` | deploy/scripts/demo-node-config.py:654-675 | undoing a first up that stopped leaves nothing, with the marker the last to go; stopped after any number of removals it can be repeated |
| `DemoSnapshots.Node.Transact` | deploy/scripts/demo-node-config.py:503-606 | from every settled node, stopped at any point: a committed command leaves the planned history, each snapshot on disk carrying the history up to itself and together a nonempty end of it; exactly a rollback without a snapshot to go to is declined, and changes nothing; one interrupted once its marker stands has its previous snapshot exactly when it is an upgrade or has not begun to prune |
| `DemoSnapshots.Node.Recover` | deploy/scripts/demo-node-config.py:678-690 | recovery is declined exactly when the previous snapshot is gone, and then changes nothing; from any other interruption it brings the old history back, and stopped at any point it can be repeated |
| `DemoSnapshots.Settles` | deploy/scripts/demo-node-config.py:548-606 | the end of each command leaves snapshots that are again an end of the history |
| `DemoSnapshots.PruneKeepsMid` | deploy/scripts/demo-node-config.py:596-606 | pruning at any point of a commit spares what recovery needs of the old history, except perhaps its last snapshot |
| `DemoSnapshots.PrunesPrevious` | deploy/scripts/demo-node-config.py:252-277 | a repeated up and a rollback prune exactly the snapshot to return to; an upgrade prunes at most one snapshot and never that one |
| `DemoSnapshots.InterruptAndRecover` | deploy/scripts/demo-node-config.py:548-690 | for every settled node, command and crash point once the marker stands: recovery is declined exactly when an up or a rollback had begun to prune, and otherwise, run to its end, brings the old history back |
| `DemoSnapshots.Stranded` | deploy/scripts/demo-node-config.py:596-690 | a concrete run from an empty directory: a first up, a second one stopped with its pruning done and its marker standing, and a recovery that is declined |

## Left out

- Listener I/O, TLS, QUIC, HTTP parsing and responses: around the modelled state, not part of it.
- Cryptography: signatures and key exchange are external; the snapshot hash is taken as injective.
- Floating point: tokens are exact reals, so rounding of `f64` refills is not modelled.
- The proxy-collapse warning of the limiter: a counter that only logs.
- `UpdateComponents` and `UpdateDataModel` of surfaces: a reply never sends them; re-derivation is proved on every consistent state, however reached.
- Surfaces of the web catalog, nesting depth and action descriptors: the checks no reply can change are one flag of the snapshot.
- The 262144-byte limit of a serialized surface batch.
- `RuleEngine::action` and text replies of the built-in engine: straight-line.
- JSON views that do not parse, and stream states other than open and final: views are typed values.
- Byte budgets of the serialized checkpoint: a write is nondeterministically too large.
- Rate history and the deferral queue of the agent host: deferred work comes as any list of event numbers.
- AgentHost.Host.DeriveGoal: a stored plan or a view whose texts are not valid UTF-8 is refused as a bad state; in the source strings are valid by their type.
- AgentHost.Host.EmitAction: what an action on a surface derives is any list of surface sends.
- PlanDelivery.GoalReached: says nothing of what other writers do to the surface after the last output was accepted.
- ApprovalHost.Agent.Restart: the trace of approvals restarts with the checkpoint, so one success per bridge is stated between crashes; the restart's checks of deferred surfaces and of the pending record are not modelled.
- Rfs1.Encode: kind names are parsed into a datatype beforehand; values are typed, so foreign Python types, hexadecimal spelling and lone surrogates do not occur.
- Rfs1Agreement.EncodableIff: the field names of one type are distinct, as in the schemas the script loads.
- Spool.Store.RetryPass: no other sweep of the same store runs during a pass (see `Spool.SweptMeanwhile`); refreshing and signing a forward is part of the answer it gets; an accepted forward whose removal fails stays and is tried again.
- TrustState.RunSound: values and updates are arbitrary; the store is its last saved value.
- DemoSnapshots.Node.Transact: the names of new snapshots are fresh; container control, overlay validation and the legacy owner record without a history are not modelled.
- `strip_image_markers`: a job's text is taken as it is after that.
- The participant directory, provisioning, configuration and command lines.

# zincir: the run store and the clients that drive it

A Dafny model of the durable run store of zincir, of the lease-holding contexts
and workers that write to it concurrently, of crash recovery in the example
agent, and of durable steps and timers. `dafny verify dfyconfig.toml` checks it.

Three layers of the model fit together as follows.

- `Runs` says on values what each transaction of `src/db.rs` does to the run it
  touches: the row of `agent_runs`, the run's events in sequence order and its
  checkpoint rows. `Store.Database` has the tables themselves and the
  transactions as methods that update rows, with the insert loop, the unique
  constraints and the rollback. Each method is proved to do to one run what
  `Runs` says, and nothing to any other run. `Agent.AgentContext` puts the lease
  renewal and the heartbeat flag in front of each transaction.
- `Effects` says when each transaction commits and what it has then written, in
  the terms of the tables. `Invariant`, `Queue`, `History` and `Fencing` prove
  what holds after any sequence of transactions by any number of contexts and
  workers, with live or stale leases and at any clock readings. `Invariant.Inv`
  is one inductive invariant over the log, the status, the lease columns and the
  checkpoint rows; its last part says that the checkpoint table is a fold of the
  log.
- `Contexts`, `Workflow`, `Timers`, `Worker` and `DurableAgent` are machines over
  these transactions: contexts with a gate, a heartbeat and a verifier call
  between two transactions; callers of one step; sleepers on one timer; the
  dispatch loop; and the example agent, which loses its process at any step and
  keeps its database and files. `Rivals` runs any number of the agent's
  processes against each other. `Undisturbed` ties the interleaved steps of a
  context back to the methods of `Agent.AgentContext`.

Where the code promises less than its documentation suggests, the model keeps
the code and proves the exact condition:

- `state()` is documented to return the latest accepted checkpoint and the
  events after it, and reads the two separately. The log up to the returned
  checkpoint followed by the returned events is always the whole log of the
  second read (`History.ConsistentRead`). The checkpoint is the latest one at
  that read, and no acceptance is among the events, exactly when none was
  committed between the reads (`History.SplitReadIsLatestIff`). The caller's own
  context cannot accept between its own two reads, so an acceptance there means
  that the caller has been fenced: `StaleRead.AcceptanceBetweenReads` is such a
  schedule of two contexts. A caller is safe if its lease can still be renewed
  after `state()` has returned (`Fencing.RenewableReadIsAtomic`); punctual
  renewals ensure that unless a recovery is forced
  (`Fencing.HolderReadIsAtomic`).
- `sleep` never goes on before the stored wake time as long as the clock does
  not go back (`Timers.NeverEarly`). With a clock that has gone back since the
  timer was stored, its saturating subtraction can cut the sleep short, exactly
  when the wake time is more than an `i64` of milliseconds after the second
  reading (`Timers.EarlyIff`; `Timers.ClockWentBack` is such a schedule).
- Step fencing is by context, not by claim. A closure whose step was released by
  `recover` still has its value stored exactly when its own context has claimed
  the step again and that claim is running (`Workflow.StaleClosureWinsIff`,
  `Workflow.StaleClosureCanWin`).

## Model

| member | source | states |
|---|---|---|
| Keys.TextInjective | src/db.rs:434 | the formatted idempotency keys of tool intents, tool results and the four checkpoint families are injective and pairwise disjoint, for all call ids and row ids |
| Keys.CheckpointTextInjective | src/db.rs:495 | a checkpoint key determines the row id, negative ones included, and the suffix |
| Keys.SameText | migrations/0005_checkpoints.sql:23-24 | comparing key texts, as the unique index does, is comparing what the keys stand for, also for texts chosen by callers |
| Runs.FirstOf | src/db.rs:718-745 | the first event of a kind with a call id, or none |
| Runs.CandidateIndex | src/db.rs:456-468 | the candidate row with an id, or none |
| Runs.LatestWith | src/db.rs:581-594 | a row with the wanted status whose round is the highest of all such rows; none only if there is none |
| Invariant.ViewIndex | src/db.rs:476-488 | the last rebuilt checkpoint with an id, or none |
| Invariant.RespondPreserves | src/db.rs:666-705 | a response and its batch of intents keep the invariant, committed or rolled back |
| Invariant.ResultPreserves | src/db.rs:707-769 | recording a result keeps the invariant: it is the call's only result, after its intent, and never that of a candidate's call |
| Invariant.CandidateIsCheckpointCall | src/db.rs:730-734 | a call that record_tool_result accepts is not the open candidate's call |
| Invariant.ProposeIsUnique | src/db.rs:406-427 | the next round is the number of rows plus one, and neither UNIQUE(run_id, round) nor UNIQUE(run_id, tool_call_id) is violated by a proposal |
| Invariant.ProposePreserves | src/db.rs:353-442 | a proposal keeps the invariant: its event stands at based_on + 1, rounds stay 1..n and only the last row is a candidate |
| Invariant.DecisionFits | src/db.rs:489-509 | neither event of a decision is refused by the key index, and the result is the first of the candidate's call |
| Invariant.DecidePreserves | src/db.rs:444-515 | a decision keeps the invariant: its event at decision_event_seq, the tool result next to it, before any later proposal |
| Invariant.DecidedViews | src/db.rs:475-509 | replaying the two events of a decision gives exactly the updated row |
| Invariant.NextPreserves | src/db.rs:836-855 | every transaction that contexts and workers issue keeps the invariant |
| Invariant.InvariantHolds | src/db.rs:836-855 | after any sequence of such transactions from a new run: log shape, status, lease columns and checkpoint rows are consistent, and folding the log rebuilds the checkpoint table |
| Queue.PendingIsOpen | src/db.rs:1081-1109 | for every log, the NOT EXISTS query equals the queue that calls join and results leave, in order |
| Queue.ResultRemovesOne | src/db.rs:1094-1100 | the first result of a recorded call removes exactly that call and keeps the order of the others |
| Queue.QueueStep | src/db.rs:666-769 | record_response appends its calls to the queue, a result or a decision removes exactly one, and all other transactions leave it alone |
| Queue.DecisionTakesCall | src/db.rs:498-509 | both events of a decision are inserted and the candidate's call leaves the queue |
| Queue.ResponseJoins | src/db.rs:677-701 | a batch leaves the queue as it was, followed by its calls |
| Queue.ResponseRoundTrip | src/agent.rs:236-289 | the calls of a committed response come back from pending_tool_calls in order, with their names, arguments and response_tool_count, after all earlier pending calls |
| Queue.ProposableIffAlone | src/db.rs:364-389 | a response makes its submit_checkpoint call proposable if and only if that is its only call |
| Queue.CallLifecycle | src/db.rs:746-751 | a call id has at most one intent and one result, the result later, so the test `existing.seq <= intent_seq` is never true |
| History.NextExtends | src/db.rs:771-797 | every transaction, raw appends included, only appends events, keeps proposals and decided rows, and never lowers the epoch |
| History.ExecExtends | src/db.rs:873-894 | the same over whole histories: the log is append-only |
| History.StatusIsReplay | src/db.rs:313-351 | replaying the transitions gives the status; the log is empty exactly when pending, starts with pending to running, and has running to completed only as its last event |
| History.CompletionIsFinal | src/db.rs:596-624 | no transaction, forced recovery and raw appends included, changes a completed run |
| History.LeaseColumnsOk | src/db.rs:771-797 | owner and expiry are set together and a completed run has neither, also in runs with raw appends |
| History.CompletedRunIsFinal | src/db.rs:596-624 | a completed run never changes again, whatever raw appends its history holds |
| History.InsertAllCommits | src/db.rs:666-705 | a batch is inserted exactly when its keys are new and pairwise different; otherwise it fails with a database error |
| History.RespondCommitsIff | src/agent.rs:236-270 | record_response commits if and only if the lease is live, the run running, and the call ids are pairwise distinct and none is in the log |
| History.ResultCommitsIff | src/db.rs:716-764 | record_tool_result commits if and only if the lease is live on a running run, the id is that of a recorded call other than a checkpoint, and no other result is stored; the result is then in the log, and repeating it changes nothing |
| History.ProposeCommitsIff | src/db.rs:364-412 | a proposal commits if and only if the lease is live on a running run, the call is a pending standalone intent and no candidate is open |
| History.DecideCommitsIff | src/db.rs:454-509 | an open candidate can always be decided either way under a live lease, and the decision settles its own still pending call |
| History.ConsistentRead | src/agent.rs:216-234 | with writers between its reads, state() still returns a suffix that continues the log up to the returned checkpoint |
| History.AtomicReadIsLatest | src/db.rs:581-594 | with atomic reads the suffix has no acceptance: highest accepted round means latest accepted decision |
| History.TwoReads | src/agent.rs:216-234 | for any two states of a run, one before the other: a checkpoint read in the first is latest in the second exactly when no acceptance came between |
| History.SplitReadIsLatestIff | src/agent.rs:216-234 | for any transactions between its two reads, state() returns the latest accepted checkpoint, and no acceptance among the events, if and only if none was committed between them |
| History.SplitReadMissesAcceptance | src/agent.rs:216-234 | any accepting decision between the two reads makes the returned checkpoint stale and puts an acceptance in the returned events |
| History.StateIsExact | src/agent.rs:216-234 | state() answers the accepted checkpoint of the highest round and exactly the events after its decision's tool result, that result being the last event left out, and none of the events a result of that call; all events if nothing is accepted |
| History.SplitStateIsExact | src/agent.rs:216-234 | the same for the checkpoint of the first read and the log of the second, whatever is committed in between |
| History.ReadAcross | src/agent.rs:219-228 | the same for any two states of a run, one before the other |
| StaleRead.AcceptanceBetweenReads | src/agent.rs:216-234 | a schedule of two contexts: the first, idle and free to call state(), is fenced by a forced recovery between its two reads, the second accepts the checkpoint, and the read answers no checkpoint together with events that contain the acceptance |
| Clock.DurationRoundsUp | src/db.rs:986-996 | the conversion to milliseconds is the exact ceiling and fails exactly above i64 |
| Clock.LeaseOutlivesGap | src/db.rs:213-233 | a lease outlives a gap from every instant if and only if the gap is at most the TTL less one millisecond |
| Effects.ClaimCommitsIff | src/db.rs:103-143 | an open run is claimed if and only if the expiry fits an i64 and it has no owner or recovery is forced; the lease handed out names the owner, next epoch and expiry that the row got |
| Effects.ClaimSelectedCommitsIff | src/db.rs:168-204 | a worker's claim hands out the lease that the row got, and leaves the run running, with a transition event exactly if it was pending |
| Effects.ClaimableIff | src/db.rs:158-163 | a worker may take exactly the open runs that have no owner or whose lease has run out |
| Effects.GrantedLeaseRenews | src/db.rs:210-251 | the lease of the last claim is valid at exactly the readings before its expiry, and renewable at those whose new expiry fits an i64 |
| Effects.ReleasedRunReopens | src/db.rs:253-272 | the holder of the epoch can release, expired or not, and the released run can then be claimed without force |
| Effects.RenewCommitsIff | src/db.rs:221-237 | exact condition of a renewal, which moves only the expiry of row and lease |
| Effects.StatusCommitsIff | src/db.rs:320-347 | exact condition of a status change and the one event it appends |
| Effects.CompleteCommitsIff | src/db.rs:596-624 | exact condition of completion and its whole effect |
| Effects.AppendCommitsIff | src/db.rs:771-797 | a raw append commits if and only if the lease is live on a running run and the key is new; it appends that event |
| Effects.ResponseEffect | src/db.rs:676-701 | a response is one llm_call event with its content, calls and stop reason, then one tool_call event a call, in order, with id, name, arguments and count |
| Effects.ResultEffect | src/db.rs:735-764 | the first result is appended with its content; a repetition answers the stored event |
| Effects.ProposalEffect | src/db.rs:406-436 | the new row has the proposed state, the next round and the last event as base, and its event says the same |
| Effects.DecisionEffect | src/db.rs:469-509 | a decision is logged as accepted or rejected with its verification, followed by the result of the candidate's own call, which says how it was decided and on what grounds; the row gets the same |
| Effects.CandidateReadIff | src/db.rs:517-542 | the fetch succeeds if and only if the lease is live on a running run and the id is that of an open candidate, which it answers |
| Effects.PendingReadIff | src/db.rs:544-564 | under a live lease of a running run, and only then, answers an open candidate, or none if there is none |
| Effects.CallsReadIff | src/db.rs:1081-1109 | under a live lease of a running run, and only then, answers exactly the calls without a later result |
| Fencing.OtherEpochHasNoEffect | src/db.rs:813-834 | no transaction under another epoch changes anything, whatever the clock says |
| Fencing.ClaimFencesForever | src/db.rs:116-140 | once a claim commits, no lease with a smaller epoch ever changes the run again, in any history |
| Fencing.WritersInEpochOrder | src/db.rs:771-797 | labelling each event with its writer's epoch gives a non-decreasing sequence along the log |
| Fencing.LeaseOnlyKeeps | src/db.rs:813-834 | transactions of other epochs change nothing, and renewals and releases change only lease columns, over whole histories |
| Fencing.UnclaimedReadIsAtomic | src/agent.rs:216-234 | if nobody claims the run between the two reads of state() and its holder does no more than renew, state() answers as one atomic read, whatever stale contexts try |
| Fencing.RenewableReadIsAtomic | src/agent.rs:366-369 | if the caller's lease can be renewed after state() has returned, and the caller did no more than renew meanwhile, state() answered as one atomic read, whatever any others did, claims included |
| Fencing.HolderReadIsAtomic | src/agent.rs:216-234 | a holder that only renews, and punctually, finds log, checkpoints and status as they were |
| Fencing.HolderOrWorker | src/db.rs:158-163 | at every clock reading an open owned run can be renewed by its holder or claimed by a worker, never both and never neither |
| Fencing.HeldStep | src/db.rs:112-121 | any allowed transaction leaves a held run with its holder |
| Fencing.HolderKeepsRun | src/agent.rs:58-83 | a holder whose renewals are at most the TTL less one millisecond apart keeps the run |
| Fencing.TimedExclusivity | src/agent.rs:371-376 | in such a history every renewal by the holder commits, every open() is refused and no worker finds the run claimable |
| Fencing.SteadyIsPunctual | src/agent.rs:58-83 | with a clock that does not go back, renewals at most the TTL less one millisecond apart are never overdue when anyone reads the clock |
| Fencing.SteadyExclusivity | src/agent.rs:58-83 | with such a clock and such renewals and no forced recovery, every renewal succeeds, every open() is refused and no worker finds the run claimable |
| Store.MaxSeqIsLast | src/db.rs:865-871 | MAX(seq) is the length of the run's log less one |
| Store.RowPosition | src/db.rs:873-894 | each row stands in its run's log at its sequence number: sequence numbers are exactly 0..n-1 |
| Store.RefusedIsKeyTaken | migrations/0001_init.sql:29-33 | at the next sequence number the constraints refuse a row exactly when the run has its key; UNIQUE(run_id, seq) is never violated |
| Store.CandidateAtIsIndex | src/db.rs:456-468 | the lookup by id in the whole table finds the run's own candidate |
| Store.Database.CreateRun | src/db.rs:14-35 | adds a pending run without events, checkpoints or lease, keeping the invariant of every run |
| Store.Database.ClaimRunLease | src/db.rs:93-145 | refuses a missing or terminal run, an owned run without forced recovery and an expiry beyond i64; else the row has the owner, epoch and expiry of the lease handed out, and no other run changes |
| Store.Database.SelectRecoverable | src/db.rs:158-169 | finds a claimable run if there is one: none was created earlier, and none at the same time has a smaller id |
| Store.Database.ClaimNextRecoverableRun | src/db.rs:147-208 | takes the first claimable run, which then is running under exactly the lease handed out, in the worker's name; answers none exactly when no run is claimable; keeps the invariant of every run |
| Store.Database.RenewRunLease | src/db.rs:210-251 | moves the expiry and nothing else, and only for the unexpired lease of a run that is not terminal |
| Store.Database.ReleaseRunLease | src/db.rs:253-272 | clears owner and expiry for the holder of the epoch, expired or not, and for nobody else |
| Store.Database.InsertEvent | src/db.rs:873-894 | appends to the run's log, or fails and changes nothing |
| Store.Database.UpdateRunStatus | src/db.rs:313-351 | under an unexpired lease sets the status together with its transition event, or changes nothing if it is the status already |
| Store.Database.CompleteRun | src/db.rs:596-624 | in one step sets the status, clears the lease and appends the final transition, only for the live lease of a running run |
| Store.Database.InsertBatch | src/db.rs:677-701 | the insert loop equals inserting the whole batch, and fails where that fails |
| Store.Database.AppendLlmCallWithToolIntents | src/db.rs:666-705 | either the whole batch is committed, or a rejection at any position leaves every table as it was |
| Store.Database.AppendEventWithLease | src/db.rs:771-797 | appends any event at the next sequence number under the live lease of a running run, and is refused exactly when its key is taken |
| Store.Database.RecordToolResult | src/db.rs:707-769 | appends the first result of a recorded call, answers a repetition of it with the stored event, and refuses a different or premature one |
| Store.Database.FindPendingToolCalls | src/db.rs:1081-1109 | answers the pending calls of a running run under a live lease |
| Store.Database.ProposeCheckpoint | src/db.rs:353-442 | adds the candidate row and its event or neither, with a row id above all of the run's |
| Store.Database.WriteProposal | src/db.rs:415-436 | inserts the row and its event, or rolls both back |
| Store.Database.CheckProposal | src/db.rs:363-413 | answers the round and based_on_event_seq that the checks allow, or their error |
| Store.Database.WriteDecision | src/db.rs:476-509 | the UPDATE and the two inserts, which fail exactly when inserting both events does |
| Store.Database.CommitDecision | src/db.rs:844-855 | commits a decision, or rolls back the row and both events |
| Store.Database.DecideCheckpoint | src/db.rs:444-515 | decides the candidate with that id in that run: row, decision event and tool result, or none of them; what they say is Effects.DecisionEffect |
| Store.Database.GetCheckpointCandidate | src/db.rs:517-542 | the stored candidate with an id |
| Store.Database.GetPendingCheckpoint | src/db.rs:544-564 | the run's open candidate, if there is one |
| Store.Database.ClaimStep | src/db.rs:896-949 | answers a stored result, refuses a running step, or grants the step and marks it running |
| Store.Database.CompleteStep | src/db.rs:951-984 | stores the result only for the owner of the running claim |
| Store.Database.RecoverSteps | src/db.rs:1052-1071 | releases the running steps of one run and nothing else |
| Store.Database.ScheduleTimer | src/db.rs:998-1035 | the first wake time stays; overflow and a missing run change nothing |
| Store.Database.CompleteTimer | src/db.rs:1037-1048 | marks one timer and no other |
| Agent.WorkedKeepsInv | src/agent.rs:371-376 | an agent operation under a renewed lease keeps the invariant of every run in the database |
| Agent.StartKeepsInv | src/agent.rs:179-199 | claiming and starting keep it, whichever of the two fails |
| Agent.AgentContext.ClaimRun | src/agent.rs:179-199 | exact condition of success; the context then has the lease that its running run has; a failed start gives the claim back |
| Agent.AgentContext.Beat | src/agent.rs:69-83 | one renewal by the heartbeat, with the exact condition of its success; a failure raises the flag, which is never lowered |
| Agent.AgentContext.Prepare | src/agent.rs:371-376 | exact condition of success, and then only the expiry of row and lease has moved; otherwise nothing changes |
| Agent.AgentContext.RecordResponse | src/agent.rs:236-270 | succeeds if and only if the gate is open: the heartbeat has not failed, the lease can be renewed, the run is running and the renewed lease is still good, and the call ids are new and distinct; one batch, for the context's run only |
| Agent.AgentContext.PendingToolCalls | src/agent.rs:272-289 | the pending calls, read under the renewed lease, if and only if the gate is open |
| Agent.AgentContext.RecordToolResult | src/agent.rs:291-295 | succeeds if and only if the gate is open, the call was recorded and is no checkpoint, and no other result is stored |
| Agent.AgentContext.PendingCheckpoint | src/agent.rs:314-317 | the open candidate, read under the renewed lease, if and only if the gate is open |
| Agent.AgentContext.ProposeState | src/agent.rs:307-310 | one proposal under the renewed lease, if and only if the gate is open, the call is a pending standalone intent and no candidate is open |
| Agent.AgentContext.FetchCandidate | src/agent.rs:328-332 | the stored candidate, whatever record the caller passed, if and only if the gate is open and the candidate is |
| Agent.AgentContext.Judge | src/agent.rs:333-342 | the verifier's answer is stored and decides, if and only if the gate is open and the candidate still is |
| Agent.AgentContext.Close | src/agent.rs:345-350 | releases the lease exactly if the run still has it, even after a heartbeat failure, and succeeds exactly if neither failed |
| Agent.AgentContext.Complete | src/agent.rs:352-364 | completes if and only if the gate is open, with the whole effect of completion; otherwise the database is exactly as if the context had released its lease and done nothing else |
| Agent.AgentContext.State | src/agent.rs:216-234 | the run, its accepted checkpoint of the highest round and exactly the events after that checkpoint's tool result |
| Contexts.StepsInv | src/agent.rs:58-120 | in every interleaving: epochs of contexts differ, the gate has one holder, a failed context is past its checks, carried candidates are the stored ones |
| Contexts.DecidedMeansVerified | src/agent.rs:319-343 | every decided checkpoint was decided as a verifier answered on exactly its stored state, with that answer stored |
| Contexts.JudgedRowVerified | src/agent.rs:328-342 | the row a context decides holds the state its verifier was called on, despite the gap between fetching and deciding |
| Contexts.DecisionNeverChanges | src/db.rs:476-488 | a decided row never changes, whatever any context does |
| Contexts.FailedWritesNothing | src/agent.rs:92-104 | no act of a context whose heartbeat failed appends an event, touches a checkpoint or changes the status |
| Contexts.FailureSticks | src/agent.rs:69-83 | the failure flag is never cleared |
| Contexts.NoWriteAfterFailure | src/agent.rs:352-376 | the two together, over any interleaving, across complete() and the verifier gap |
| Contexts.OneWriter | src/db.rs:799-834 | of two contexts at most one can change the run at any moment |
| Undisturbed.MethodUnderGate | src/agent.rs:236-343 | the steps of a method with nobody in between are one renewal and its transaction, or nothing after a failure, and free the gate |
| Undisturbed.MethodIsUnderLease | src/agent.rs:371-376 | so the interleaved steps come to what the methods of AgentContext do |
| Undisturbed.HeartbeatTurn | src/agent.rs:69-83 | one turn renews and sleeps again, or raises the flag and ends |
| Undisturbed.CloseReleases | src/agent.rs:345-350 | the steps of close() release the lease, failed heartbeat or not |
| Undisturbed.CompleteCompletes | src/agent.rs:352-364 | the steps of complete() complete the run exactly under its condition, and otherwise release the lease |
| Workflow.WorkflowContext.Recover | src/workflow.rs:27-29 | releases the run's running steps and nothing else |
| Workflow.WorkflowContext.Step | src/workflow.rs:45-66 | the closure runs exactly on a new or pending step, whose row then says what it returned; a stored result is answered without running it, a running step is refused |
| Workflow.WorkflowContext.Sleep | src/workflow.rs:33-41 | succeeds if and only if the run exists and reading plus delay fits an i64; with a clock that does not go back it never returns before the stored wake time, whichever call stored it, and at any clock exactly when that is at most an i64 of milliseconds after the second reading |
| Workflow.StepMemoised | src/workflow.rs:45-66 | for any interleaving of step and recover: all successful calls return one value, starts equal releases plus one if taken, and without recovery a closure starts at most once |
| Workflow.ResultNeverChanges | src/db.rs:961-979 | a stored result stays, whoever completes or recovers |
| Workflow.GrantedMeansPending | src/db.rs:914-944 | a claim is granted exactly on a new or pending step, so the catch-all arm never meets a completed one |
| Workflow.ResultOfLatestContext | src/workflow.rs:56-65 | a stored result is the value of a closure run by the context that made the latest claim |
| Workflow.StaleClosureWinsIff | src/db.rs:961-979 | a returned closure is stored if and only if the step is running and its own context made the latest claim, whichever claim the closure was started by |
| Workflow.OneCallEach | src/workflow.rs:18-24 | with one call per context, a stored result is that of the latest claim itself |
| Workflow.StaleClosureCanWin | src/workflow.rs:27-29 | a context that recovers and claims again can have the value of its first closure stored |
| Timers.RemainingIsEnough | src/workflow.rs:36-39 | the saturated remaining time reaches the wake time if and only if that is at most an i64 of milliseconds after the reading |
| Timers.WakeTimeBound | src/db.rs:1004-1009 | the stored wake time is within a millisecond of the committing call's clock plus its delay |
| Timers.StoredTimerStays | src/db.rs:1015-1031 | a stored timer keeps its wake time, and once completed stays so, through any calls |
| Timers.FirstWakeWins | src/workflow.rs:33-41 | for any interleaving of calls, failing ones included, and any clock: every call gets the first committed wake time, then and ever after |
| Timers.CompletedIffReturned | src/db.rs:1037-1048 | a timer is marked completed exactly once a call has returned |
| Timers.NeverEarly | src/workflow.rs:33-41 | with a clock that does not go back no call goes on before the stored wake time, nor earlier than a millisecond short of the committing call's reading plus its delay |
| Timers.EarlyIff | src/workflow.rs:36-39 | in any schedule a sleeper can go on early if and only if the wake time is more than an i64 of milliseconds after its second reading, and then the clock has gone back since the timer was stored |
| Timers.ClockWentBack | src/workflow.rs:36-39 | a schedule with a clock stepped back by one millisecond in which a sleeper does go on early |
| Worker.ResumeWorker.Claim | src/worker.rs:67-80 | one claim; a context that it hands out, and no other, is handed to a new handler |
| Worker.ClaimOne | src/agent.rs:167-177 | one claim over the database: the first run claimable, now running under the lease handed out, or none if there is none |
| Worker.ResumeWorker.Fill | src/worker.rs:66-81 | a tick stops only with all slots taken, or at a claim that finds nothing or fails; every other claim starts a handler for its context |
| Worker.ResumeWorker.JoinNext | src/worker.rs:83-87 | joins one running handler and frees its slot |
| Worker.TickClaims | src/worker.rs:66-81 | what a tick adds to the script: claims until the slots are full, nothing is found or a claim fails, and one handler for each context |
| Worker.DoneFrees | src/worker.rs:83-87 | what a finished handler adds: it is joined and its slot is free |
| Worker.ResumeWorker.TakeUp | src/worker.rs:63-88 | one wake does what it adds to the script |
| Worker.ResumeWorker.Drain | src/worker.rs:91-93 | joins all running handlers |
| Worker.ResumeWorker.Run | src/worker.rs:38-98 | for any claims and any order of ticks and finished handlers: the claims made, the handlers joined, the most at once and the answer are those of the script; at most max_concurrency handlers run, every claimed context has exactly one, and all are joined on return |
| Worker.ClaimedNotClaimable | src/db.rs:158-163 | within one TTL a claimed run is not claimable again |
| Worker.ClaimLoop | src/worker.rs:66-81 | over the database: each recoverable run is claimed at most once, in (created_at, id) order, and is then running under the lease handed out, in the name asked for; the loop ends with none left or no capacity, and keeps the invariant of every run |
| DurableAgent.CallsAt | examples/durable_agent.rs:93-109 | the pending calls at each point where a crash can leave the log |
| DurableAgent.DecideAt | examples/durable_agent.rs:162-194 | the verified decision of the example appends its two events |
| DurableAgent.ResultAt | examples/durable_agent.rs:111-115 | the program finds its file result in the log exactly when it has been recorded |
| DurableAgent.AcceptedIsComplete | examples/durable_agent.rs:187-199 | for any open candidate, the program's verifier accepts it if and only if the file is there and nothing remains to do, and what it accepts counts as complete |
| DurableAgent.WorkLeftIsNotComplete | examples/durable_agent.rs:196-199 | a checkpoint with work left never counts as complete, whoever accepted it |
| DurableAgent.PerformStep | examples/durable_agent.rs:79-160 | each step stays on the way of the crash-free run and, with a live lease, gets nearer its end |
| DurableAgent.AlwaysSound | examples/durable_agent.rs:79-160 | after any schedule of launches, steps, heartbeats and crashes, the log, the files and the program position fit together |
| DurableAgent.CrashTransparency | examples/durable_agent.rs:79-160 | the log is always a prefix of the ten events of the crash-free run, and all ten exactly when completed; the recorded result is the file's content |
| DurableAgent.FilePublishedOnce | examples/durable_agent.rs:201-233 | a published file is never replaced or removed |
| DurableAgent.MoveIsTransaction | examples/durable_agent.rs:79-160 | a step commits at most one transaction, one that AgentContext issues |
| DurableAgent.TimelyProgress | examples/durable_agent.rs:79-160 | every timely step lowers a rank led by the events still missing, and heartbeats do not raise it |
| DurableAgent.RecoveryCompletes | examples/durable_agent.rs:43-53 | after any schedule with any crashes, one forced recovery that takes enough timely steps completes the run with the crash-free log |
| DurableAgent.CrashFreeRunCompletes | examples/durable_agent.rs:55-66 | a run that never crashes completes with the same ten events |
| DurableAgent.RunKeepsInvariant | examples/durable_agent.rs:79-160 | the store invariant holds of the run after any schedule |
| Rivals.FencedStep | examples/durable_agent.rs:201-233 | a process that lost its epoch changes nothing in the run, and no file but by creating its own |
| Rivals.AlwaysOk | examples/durable_agent.rs:43-53 | with any number of processes launched by force: epochs differ, the newest fits the log, the others are harmless |
| Rivals.RivalTransparency | examples/durable_agent.rs:79-160 | with processes still alive when others are launched, the log is still a prefix of the ten events, all ten exactly on completion, and the file has its one content |
| Rivals.RivalRecoveryCompletes | examples/durable_agent.rs:43-53 | a process launched by force that then moves in time completes the run with the ten events, although predecessors are alive and step, beat and crash in between |
| Rivals.OnlyNewestWrites | src/db.rs:813-834 | no process but the one with the run's epoch changes the run |
| Rivals.RivalsKeepFiles | examples/durable_agent.rs:221-229 | no process replaces or removes a published file |

## Left out

- HTML pages, HTTP and process entry (`src/ui.rs`, `src/main.rs`): no protocol state.
- SQLite, sqlx and tokio internals: a transaction is one atomic step and a mutex a lock. A future dropped inside a transaction, a busy database and a failing COMMIT are not modelled.
- JSON: documents are abstract values that are stored, returned and compared. Serialisation is taken to round-trip, and a payload that does not decode is modelled only where the code takes it apart.
- UUID generation: owner ids are parameters. Fencing rests on epochs and needs no freshness of owners.
- Integer widths of `seq`, `round` and `epoch`: mathematical integers. Clock additions are checked against `i64` as in the code.
- Timers.NeverEarly: the calls sleep on one name of one run, since timers do not share rows.
- Clock readings are parameters of each transaction. Truncation to milliseconds is rounding down, also before 1970.
- `messages`, `parent_run_id`, the listing queries, `validate_name` and the textual forms of enums: no behaviour of interest.
- The test-only functions `update_run_status` and `append_event`.
- Log content under the raw append functions: `append_event_with_lease`, and batches whose payloads and keys disagree, can store any content. They are part of the fencing, append-only, finality and table results, and not of `Invariant.Inv`.
- Contexts.StepsInv: the contexts share one run, since transactions on other runs do not touch it. A method or a context dropped between two steps frees a gate that it holds at once; dropped inside a transaction they are not modelled.
- Workflow.WorkflowContext.Sleep: takes the two clock readings and the lateness of the timer as parameters, and a step closure is its result. Waiting is taken to last at least the remaining time on the clock that is read; a clock that is set back while a call waits is not modelled.
- Worker.ResumeWorker.Run: what the claims answer and what `select!` takes up next are inputs; the result of a handler is only logged by the code and is not modelled. Fairness across runs is not claimed, as the code does not give it.
- DurableAgent.AlwaysSound: `run_agent` is a program-counter machine on values, because a crash can hit between any two of its steps. One process runs at a time, as `force_recover` demands of its caller; `Rivals` has the results without that. Temporary file names, pauses and environment variables are not modelled; publication is create-if-absent, and file system errors are not modelled.
- DurableAgent.RecoveryCompletes: the steps must be timely, each before the lease it starts with has expired; heartbeats may keep it alive for as long as a step takes.
- The query for one intent has no ORDER BY; the model takes the first match. Under the invariant there is only one.

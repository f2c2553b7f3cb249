/** Whole runs: what transactions may change, what reads see, and exactly when
    the transactions of an agent commit. */
module History {
  import opened Types
  import opened Keys
  import opened Runs
  import opened Invariant

  // ---------- Append-only, whatever is written ----------

  /** A checkpoint row keeps its proposal, and a decided row keeps everything. */
  predicate RowKept(before: Checkpoint, after: Checkpoint) {
    && after.id == before.id && after.round == before.round && after.toolCallId == before.toolCallId
    && after.basedOn == before.basedOn && after.state == before.state
    && (!before.status.Candidate? ==> after == before)
  }

  predicate Extends(before: Run, after: Run) {
    && before.log <= after.log
    && |before.checkpoints| <= |after.checkpoints|
    && (forall k :: 0 <= k < |before.checkpoints| ==> RowKept(before.checkpoints[k], after.checkpoints[k]))
    && before.epoch <= after.epoch
    && before.createdAt == after.createdAt
  }

  predicate SameContents(before: Run, after: Run) {
    after.log == before.log && after.checkpoints == before.checkpoints && after.status == before.status
  }

  /** Every transaction, including the raw append functions with any payloads
      and keys, only appends events, and decides a checkpoint at most once. */
  lemma {:induction false} NextExtends(run: Run, op: Op)
    ensures Extends(run, Next(run, op))
  {
    hide PendingStandalone, FirstOf, HasCandidate, ViolatesUnique, NextRound, KeyTaken, InsertAll;
    match op
    case DoRespond(lease, now, response, intents) =>
      if InsertAll(run.log, Batch(response, intents)).Ok? {
        InsertAllAppends(run.log, Batch(response, intents));
      }
    case DoDecide(lease, now, id, accepted, verification) =>
      var k := CandidateIndex(run.checkpoints, id);
      if Writable(run, lease, now) && k < |run.checkpoints| {
        var row := DecidedRow(run.checkpoints[k], |run.log|, accepted, verification);
        var events := [DecisionEvent(id, accepted, verification), OutcomeEvent(row, accepted, verification)];
        if InsertAll(run.log, events).Ok? {
          InsertAllAppends(run.log, events);
        }
      }
    case _ =>
  }

  lemma {:induction false} ExecExtends(run: Run, ops: seq<Op>)
    ensures Extends(run, Exec(run, ops))
  {
    if ops != [] {
      ExecExtends(run, ops[..|ops| - 1]);
      NextExtends(Exec(run, ops[..|ops| - 1]), ops[|ops| - 1]);
    }
  }

  lemma {:induction false} ExecPreserves(run: Run, ops: seq<Op>)
    requires Inv(run) && AgentOps(ops)
    ensures Inv(Exec(run, ops))
  {
    hide Inv;
    if ops != [] {
      ExecPreserves(run, ops[..|ops| - 1]);
      NextPreserves(Exec(run, ops[..|ops| - 1]), ops[|ops| - 1]);
    }
  }

  // ---------- The status is a replay of the log, and completion is final ----------

  lemma {:induction false} ReplayRunning(log: seq<Event>)
    requires log != [] && log[0] == START
    requires forall i :: 0 < i < |log| ==> !log[i].kind.StateTransition?
    ensures ReplayStatus(log) == Running
  {
    if |log| > 1 {
      ReplayRunning(log[..|log| - 1]);
    }
  }

  lemma {:induction false} StatusIsReplay(run: Run)
    requires Inv(run)
    ensures ReplayStatus(run.log) == run.status
    ensures run.log == [] <==> run.status == Pending
    ensures run.log != [] ==> run.log[0] == START
    ensures forall i :: 0 < i < |run.log| && run.log[i].kind.StateTransition? ==>
      run.status == Completed && i == |run.log| - 1 && run.log[i] == FINISH
  {
    hide LogOk, RowsOk, Materialised;
    if run.status == Running {
      ReplayRunning(run.log);
    }
  }

  /** A completed run has no lease, and nothing changes it again: not even raw
      appends, recovery or a worker. */
  lemma {:induction false} CompletionIsFinal(run: Run, ops: seq<Op>)
    requires run.status == Completed && LeaseOk(run)
    ensures Exec(run, ops) == run
  {
    if ops != [] {
      CompletionIsFinal(run, ops[..|ops| - 1]);
    }
  }

  /** Status changes are those AgentContext makes; all else is allowed, raw
      appends included. */
  predicate OnlyStarts(ops: seq<Op>) {
    forall i :: 0 <= i < |ops| && ops[i].DoSetStatus? ==> ops[i].status == Running
  }

  lemma {:induction false} StepKeepsLeaseOk(run: Run, op: Op)
    requires LeaseOk(run) && (op.DoSetStatus? ==> op.status == Running)
    ensures LeaseOk(Next(run, op))
  {
    hide Insert, InsertAll, PendingStandalone, FirstOf, CandidateIndex;
  }

  /** The lease columns agree with each other and with the status, also in runs
      whose log holds whatever append_event_with_lease was given. */
  lemma {:induction false} LeaseColumnsOk(createdAt: int, ops: seq<Op>)
    requires OnlyStarts(ops)
    ensures LeaseOk(Exec(NewRun(createdAt), ops))
  {
    hide Next, LeaseOk;
    if ops == [] {
      NewRunLease(createdAt);
    } else {
      LeaseColumnsOk(createdAt, ops[..|ops| - 1]);
      StepKeepsLeaseOk(Exec(NewRun(createdAt), ops[..|ops| - 1]), ops[|ops| - 1]);
    }
  }

  lemma {:induction false} NewRunLease(createdAt: int)
    ensures LeaseOk(NewRun(createdAt))
  {
  }

  /** However a run was written to, once it is completed no transaction whatever
      changes it. */
  lemma {:induction false} CompletedRunIsFinal(createdAt: int, ops: seq<Op>, more: seq<Op>)
    requires OnlyStarts(ops) && Exec(NewRun(createdAt), ops).status == Completed
    ensures Exec(Exec(NewRun(createdAt), ops), more) == Exec(NewRun(createdAt), ops)
  {
    hide Exec;
    LeaseColumnsOk(createdAt, ops);
    CompletionIsFinal(Exec(NewRun(createdAt), ops), more);
  }

  // ---------- Exactly when transactions commit ----------

  predicate DistinctIds(calls: seq<Call>) {
    forall i, j :: 0 <= i < j < |calls| ==> calls[i].id != calls[j].id
  }

  lemma {:induction false} InsertAllCommits(log: seq<Event>, events: seq<Event>)
    ensures InsertAll(log, events).Ok? <==>
      && (forall i :: 0 <= i < |events| ==> !KeyTaken(log, events[i].key))
      && (forall i, j :: 0 <= i < j < |events| && events[i].key.Some? ==> events[i].key != events[j].key)
    ensures InsertAll(log, events).Err? ==> InsertAll(log, events).error == Db
    decreases |events|
  {
    if events != [] {
      var longer, rest := log + [events[0]], events[1..];
      InsertAllCommits(longer, rest);
      forall i | 1 <= i < |events|
        ensures KeyTaken(longer, events[i].key) <==>
          KeyTaken(log, events[i].key) || (events[0].key.Some? && events[0].key == events[i].key)
      {
        assert longer[|log|] == events[0] && forall k :: 0 <= k < |log| ==> longer[k] == log[k];
      }
      assert forall i :: 0 <= i < |rest| ==> rest[i] == events[i + 1];
      BatchSplits(log, events);
    }
  }

  /** The condition of a batch, seen from its first event. */
  lemma {:induction false} BatchSplits(log: seq<Event>, events: seq<Event>)
    requires events != []
    requires forall i :: 1 <= i < |events| ==>
      (KeyTaken(log + [events[0]], events[i].key) <==>
        KeyTaken(log, events[i].key) || (events[0].key.Some? && events[0].key == events[i].key))
    ensures
      ((forall i :: 0 <= i < |events| ==> !KeyTaken(log, events[i].key))
        && (forall i, j :: 0 <= i < j < |events| && events[i].key.Some? ==> events[i].key != events[j].key))
      <==>
      (!KeyTaken(log, events[0].key)
        && (forall i :: 0 <= i < |events[1..]| ==> !KeyTaken(log + [events[0]], events[1..][i].key))
        && (forall i, j :: 0 <= i < j < |events[1..]| && events[1..][i].key.Some? ==> events[1..][i].key != events[1..][j].key))
  {
    hide KeyTaken;
    var rest := events[1..];
    assert forall i :: 0 <= i < |rest| ==> rest[i] == events[i + 1];
    assert forall i :: 1 <= i < |events| ==> events[i] == rest[i - 1];
  }

  /** record_response commits exactly when its caller holds the live lease of a
      running run and its call ids are new: different from each other and from
      every id the log already has. */
  lemma {:induction false} RespondCommitsIff(run: Run, lease: Lease, now: int, response: Payload)
    requires Inv(run) && response.Response?
    ensures AppendResponse(run, lease, now, response, IntentsFor(response.calls)).Commit? <==>
      && Writable(run, lease, now)
      && DistinctIds(response.calls)
      && forall i :: 0 <= i < |response.calls| ==> !HasIntent(run.log, |run.log|, response.calls[i].id)
  {
    hide RowsOk, Materialised, StatusOk;
    var calls := response.calls;
    var events := Batch(response, IntentsFor(calls));
    InsertAllCommits(run.log, events);
    assert forall i :: 0 <= i < |calls| ==> events[i + 1].key == Some(IntentKey(calls[i].id));
    forall i | 0 <= i < |calls|
      ensures KeyTaken(run.log, events[i + 1].key) <==> HasIntent(run.log, |run.log|, calls[i].id)
    {
      IntentKeyTaken(run.log, calls[i].id);
    }
    BatchCondition(run.log, response);
  }

  lemma {:induction false} IntentKeyTaken(log: seq<Event>, callId: string)
    requires LogOk(log)
    ensures KeyTaken(log, Some(IntentKey(callId))) <==> HasIntent(log, |log|, callId)
  {
    if i :| 0 <= i < |log| && log[i].key == Some(IntentKey(callId)) {
      assert EventShape(log[i]);
    }
    if i :| 0 <= i < |log| && log[i].kind.ToolCall? && log[i].payload.CallId() == Some(callId) {
      assert EventShape(log[i]);
    }
  }

  lemma {:induction false} BatchCondition(log: seq<Event>, response: Payload)
    requires response.Response?
    ensures var calls, events := response.calls, Batch(response, IntentsFor(response.calls));
      ((forall i :: 0 <= i < |events| ==> !KeyTaken(log, events[i].key))
        && (forall i, j :: 0 <= i < j < |events| && events[i].key.Some? ==> events[i].key != events[j].key))
      <==>
      (DistinctIds(calls) && forall i :: 0 <= i < |calls| ==> !KeyTaken(log, Some(IntentKey(calls[i].id))))
  {
    hide KeyTaken;
    var calls, events := response.calls, Batch(response, IntentsFor(response.calls));
    assert events[0].key == None && !KeyTaken(log, None) by {
      NoKey(log);
    }
    assert forall i :: 1 <= i < |events| ==> events[i].key == Some(IntentKey(calls[i - 1].id));
    assert forall i :: 0 <= i < |calls| ==> calls[i].id == events[i + 1].key.value.callId;
  }

  /** A call other than a checkpoint was recorded under this id. */
  predicate HasToolIntent(log: seq<Event>, callId: string) {
    exists i :: 0 <= i < |log| && log[i].kind.ToolCall? && log[i].payload.CallId() == Some(callId)
      && log[i].payload.Name() != Some(CHECKPOINT_TOOL)
  }

  predicate HasResultWith(log: seq<Event>, callId: string, content: Value) {
    exists i :: 0 <= i < |log| && log[i].kind.ToolResult? && log[i].payload == Outcome(callId, content)
  }

  /** record_tool_result commits exactly when its caller holds the live lease of
      a running run, the id is that of a recorded call other than a checkpoint,
      and the call has no result yet or has this very result. Committed, the
      result is in the log; a repetition changes nothing. */
  lemma {:induction false} ResultCommitsIff(run: Run, lease: Lease, now: int, callId: string, content: Value)
    requires Inv(run)
    ensures RecordResult(run, lease, now, callId, content).Commit? <==>
      && Writable(run, lease, now)
      && HasToolIntent(run.log, callId)
      && (HasResult(run.log, callId) ==> HasResultWith(run.log, callId, content))
    ensures RecordResult(run, lease, now, callId, content).Commit? ==>
      var after := RecordResult(run, lease, now, callId, content).run;
      && HasResultWith(after.log, callId, content)
      && (HasResult(run.log, callId) ==> after == run)
      && (!HasResult(run.log, callId) ==> |after.log| == |run.log| + 1)
    ensures RecordResult(run, lease, now, callId, content).Abort? ==>
      RecordResult(run, lease, now, callId, content).error == InvalidState
  {
    hide RowsOk, Materialised, StatusOk, LogOk;
    var log := run.log;
    var intent, existing := FirstOf(log, ToolCall, callId), FirstOf(log, ToolResult, callId);
    FirstIntent(log, callId);
    FirstResult(log, callId, content);
    if existing == |log| {
      ResultKeyFree(log, callId);
      var event := Event(ToolResult, Outcome(callId, content), Some(ResultKey(callId)));
      assert (log + [event])[|log|] == event;
    }
  }

  lemma {:induction false} FirstIntent(log: seq<Event>, callId: string)
    requires LogOk(log)
    ensures var i := FirstOf(log, ToolCall, callId);
      HasToolIntent(log, callId) <==> i < |log| && log[i].payload.Name() != Some(CHECKPOINT_TOOL)
    ensures var i := FirstOf(log, ToolCall, callId);
      i < |log| ==> log[i].payload.Name().Some?
  {
    var i := FirstOf(log, ToolCall, callId);
    if i < |log| {
      assert EventShape(log[i]);
    }
    if HasToolIntent(log, callId) {
      var j :| 0 <= j < |log| && log[j].kind.ToolCall? && log[j].payload.CallId() == Some(callId)
        && log[j].payload.Name() != Some(CHECKPOINT_TOOL);
      IntentUnique(log, i, j);
    }
  }

  lemma {:induction false} ResultAfterIntent(log: seq<Event>, callId: string)
    requires ResultsFollow(log)
    ensures var j := FirstOf(log, ToolResult, callId);
      && (HasResult(log, callId) <==> j < |log|)
      && (j < |log| ==> FirstOf(log, ToolCall, callId) < j)
  {
    var j := FirstOf(log, ToolResult, callId);
    if j < |log| {
      assert HasIntent(log, j, callId);
    }
  }

  lemma {:induction false} OnlyResult(log: seq<Event>, callId: string, content: Value)
    requires OneResult(log)
    ensures var j := FirstOf(log, ToolResult, callId);
      HasResultWith(log, callId, content) <==> j < |log| && log[j].payload == Outcome(callId, content)
  {
    var j := FirstOf(log, ToolResult, callId);
    if HasResultWith(log, callId, content) {
      var k :| 0 <= k < |log| && log[k].kind.ToolResult? && log[k].payload == Outcome(callId, content);
      assert log[k].payload.CallId() == Some(callId);
      assert SameCall(log[j].payload, log[k].payload);
    }
  }

  /** The result of a call, found first, comes after its intent and is its only
      one. */
  lemma {:induction false} FirstResult(log: seq<Event>, callId: string, content: Value)
    requires LogOk(log)
    ensures var j := FirstOf(log, ToolResult, callId);
      && (HasResult(log, callId) <==> j < |log|)
      && (j < |log| ==> FirstOf(log, ToolCall, callId) < j)
      && (HasResultWith(log, callId, content) <==> j < |log| && log[j].payload == Outcome(callId, content))
  {
    hide EventShape, KeysUnique, ResultsFollow, OneResult, HasResult, HasResultWith;
    ResultAfterIntent(log, callId);
    OnlyResult(log, callId, content);
  }

  lemma {:induction false} ResultKeyFree(log: seq<Event>, callId: string)
    requires LogOk(log) && FirstOf(log, ToolResult, callId) == |log|
    ensures !KeyTaken(log, Some(ResultKey(callId)))
  {
    forall i | 0 <= i < |log|
      ensures log[i].key != Some(ResultKey(callId))
    {
      assert EventShape(log[i]);
    }
  }

  /** A proposal is never refused by a unique constraint: it commits exactly when
      the call is a pending standalone intent and no candidate is open. */
  lemma {:induction false} ProposeCommitsIff(run: Run, lease: Lease, now: int, callId: string, state: CheckpointState, id: int)
    requires Inv(run) && FreshId(run, id)
    ensures Propose(run, lease, now, callId, state, id).Commit? <==>
      Writable(run, lease, now) && PendingStandalone(run.log, callId) && !HasCandidate(run.checkpoints)
    ensures Propose(run, lease, now, callId, state, id).Abort? ==>
      Propose(run, lease, now, callId, state, id).error == InvalidState
  {
    hide Inv, PendingStandalone, KeyTaken, ViolatesUnique, NextRound;
    if PendingStandalone(run.log, callId) && !HasCandidate(run.checkpoints) {
      ProposeIsUnique(run, callId);
      ProposedKeyFree(run, id);
    }
  }

  predicate OpenCandidate(rows: seq<Checkpoint>, id: int) {
    exists k :: 0 <= k < |rows| && rows[k].id == id && rows[k].status.Candidate?
  }

  /** An open candidate can always be decided, either way: a decision commits
      exactly when the lease is live, the run is running and the id names an open
      candidate. It then settles the candidate's own call, still pending and
      standalone until then. */
  lemma {:induction false} DecideCommitsIff(run: Run, lease: Lease, now: int, id: int, accepted: bool, verification: Value)
    requires Inv(run)
    ensures Decide(run, lease, now, id, accepted, verification).Commit? <==>
      Writable(run, lease, now) && OpenCandidate(run.checkpoints, id)
    ensures Decide(run, lease, now, id, accepted, verification).Commit? ==>
      var row := Decide(run, lease, now, id, accepted, verification).value;
      && PendingStandalone(run.log, row.toolCallId)
      && row.status == Verdict(accepted) && row.verification == Some(verification)
      && HasResult(Decide(run, lease, now, id, accepted, verification).run.log, row.toolCallId)
  {
    hide Inv, PendingStandalone, KeyTaken;
    var k := CandidateIndex(run.checkpoints, id);
    if Writable(run, lease, now) && k < |run.checkpoints| {
      var row := DecidedRow(run.checkpoints[k], |run.log|, accepted, verification);
      var decision, outcome := DecisionEvent(id, accepted, verification), OutcomeEvent(row, accepted, verification);
      DecisionFits(run, k, accepted, verification);
      assert outcome == OutcomeEvent(run.checkpoints[k], accepted, verification);
      InsertTwo(run.log, decision, outcome);
      CandidatePending(run, k);
      var longer := run.log + [decision] + [outcome];
      assert longer[|run.log| + 1] == outcome;
    }
  }

  lemma {:induction false} CandidatePending(run: Run, k: nat)
    requires Inv(run) && k < |run.checkpoints| && run.checkpoints[k].status.Candidate?
    ensures k == |run.checkpoints| - 1
    ensures PendingStandalone(run.log, run.checkpoints[k].toolCallId)
  {
    hide LogOk, StatusOk, Materialised, PendingStandalone;
    assert RowOk(run.log, run.checkpoints[k]);
  }

  // ---------- Reading the state while others write ----------

  /** The last event state() skips. */
  function AfterSeq(checkpoint: Option<Checkpoint>): int {
    match checkpoint
    case None => -1
    case Some(row) => if row.decisionSeq.Some? then row.decisionSeq.value + 1 else -1
  }

  /** The events with a larger sequence number. */
  function EventsAfter(log: seq<Event>, afterSeq: int): seq<Event> {
    if afterSeq < 0 then log else if afterSeq + 1 <= |log| then log[afterSeq + 1..] else []
  }

  predicate AcceptedEventIn(events: seq<Event>) {
    exists i :: 0 <= i < |events| && events[i].kind.CheckpointAccepted?
  }

  /** The checkpoint is read from one state and the events from a later one.
      Still, the log up to the returned checkpoint's tool result followed by the
      returned events is the whole log at the second read. */
  lemma {:induction false} ConsistentRead(run: Run, ops: seq<Op>)
    requires Inv(run) && AgentOps(ops)
    ensures var afterSeq := AfterSeq(LatestWith(run.checkpoints, Accepted));
      var later := Exec(run, ops).log;
      && -1 <= afterSeq < |run.log|
      && run.log[..afterSeq + 1] + EventsAfter(later, afterSeq) == later
  {
    hide Inv, Exec, EventsAfter, RowKept;
    ExecExtends(run, ops);
    var checkpoint := LatestWith(run.checkpoints, Accepted);
    if checkpoint.Some? {
      AcceptedRowOk(run, checkpoint.value);
    }
    hide LatestWith;
    PrefixContinues(run.log, Exec(run, ops).log, AfterSeq(checkpoint));
  }

  lemma {:induction false} PrefixContinues(log: seq<Event>, later: seq<Event>, afterSeq: int)
    requires log <= later && -1 <= afterSeq < |log|
    ensures log[..afterSeq + 1] + EventsAfter(later, afterSeq) == later
  {
    var n := afterSeq + 1;
    assert later[0..] == later;
    assert EventsAfter(later, afterSeq) == later[n..];
    hide EventsAfter;
    calc {
      log[..n] + EventsAfter(later, afterSeq);
    ==
      log[..n] + later[n..];
    ==  { SamePrefix(log, later, n); }
      later[..n] + later[n..];
    ==
      later;
    }
  }

  lemma {:induction false} SamePrefix(log: seq<Event>, later: seq<Event>, n: nat)
    requires log <= later && n <= |log|
    ensures log[..n] == later[..n]
  {
  }

  predicate ResultOf(e: Event, callId: string) {
    e.kind.ToolResult? && e.payload.CallId() == Some(callId)
  }

  predicate NoResultIn(events: seq<Event>, callId: string) {
    forall i :: 0 <= i < |events| ==> !ResultOf(events[i], callId)
  }

  predicate NoneAccepted(rows: seq<Checkpoint>) {
    forall k :: 0 <= k < |rows| ==> !rows[k].status.Accepted?
  }

  predicate HighestAccepted(rows: seq<Checkpoint>, row: Checkpoint) {
    && row in rows && row.status.Accepted?
    && forall k :: 0 <= k < |rows| && rows[k].status.Accepted? ==> rows[k].round <= row.round
  }

  /** The events after the decision at d of a call's checkpoint and its result. */
  predicate AfterDecision(log: seq<Event>, d: int, callId: string, events: seq<Event>) {
    && 0 <= d && d + 2 <= |log|
    && log[d].kind.CheckpointAccepted? && ResultOf(log[d + 1], callId)
    && events == log[d + 2..] && NoResultIn(events, callId)
  }

  /** What state() answers: rows are the checkpoints of its first read and log is
      the log of its second. With an accepted checkpoint, the one of the highest
      round, come exactly the events after the result that its tool call got
      with the decision; without one, all events. */
  predicate StateOf(rows: seq<Checkpoint>, log: seq<Event>, checkpoint: Option<Checkpoint>, events: seq<Event>) {
    match checkpoint
    case None => events == log && NoneAccepted(rows)
    case Some(row) =>
      HighestAccepted(rows, row) && row.decisionSeq.Some? && AfterDecision(log, row.decisionSeq.value, row.toolCallId, events)
  }

  lemma {:induction false} AcceptedRowSettled(run: Run, row: Checkpoint)
    requires Inv(run) && row in run.checkpoints && row.status.Accepted?
    ensures row.decisionSeq.Some? && 0 <= row.decisionSeq.value && row.decisionSeq.value + 2 <= |run.log|
    ensures run.log[row.decisionSeq.value].kind.CheckpointAccepted?
    ensures ResultOf(run.log[row.decisionSeq.value + 1], row.toolCallId)
  {
    hide LogOk, StatusOk, Materialised;
    var k :| 0 <= k < |run.checkpoints| && run.checkpoints[k] == row;
    assert RowOk(run.log, run.checkpoints[k]);
  }

  lemma {:induction false} NoOtherResult(log: seq<Event>, n: nat, callId: string)
    requires OneResult(log) && n < |log| && ResultOf(log[n], callId)
    ensures forall i :: n < i < |log| ==> !ResultOf(log[i], callId)
  {
    forall i | n < i < |log|
      ensures !ResultOf(log[i], callId)
    {
      assert log[i].kind.ToolResult? ==> !SameCall(log[n].payload, log[i].payload);
    }
  }

  lemma {:induction false} InvOneResult(run: Run)
    requires Inv(run)
    ensures OneResult(run.log)
  {
  }

  lemma {:induction false} EventsFrom(log: seq<Event>, d: nat, callId: string)
    requires OneResult(log) && d + 2 <= |log| && log[d].kind.CheckpointAccepted? && ResultOf(log[d + 1], callId)
    ensures AfterDecision(log, d, callId, EventsAfter(log, d + 1))
  {
    NoOtherResult(log, d + 1, callId);
    hide OneResult, ResultOf;
    var events := log[d + 2..];
    assert forall i :: 0 <= i < |events| ==> events[i] == log[d + 2 + i];
  }

  /** The row's decision and its result are in the log. */
  predicate SettledIn(log: seq<Event>, row: Checkpoint) {
    && row.decisionSeq.Some? && 0 <= row.decisionSeq.value && row.decisionSeq.value + 2 <= |log|
    && log[row.decisionSeq.value].kind.CheckpointAccepted?
    && ResultOf(log[row.decisionSeq.value + 1], row.toolCallId)
  }

  lemma {:induction false} SettledAcross(run: Run, later: Run, row: Checkpoint)
    requires Inv(run) && Extends(run, later)
    ensures row in run.checkpoints && row.status.Accepted? ==> SettledIn(later.log, row)
  {
    assert run.log <= later.log;
    hide Inv, Extends, ResultOf;
    if row in run.checkpoints && row.status.Accepted? {
      AcceptedRowSettled(run, row);
    }
  }

  /** For two states of a run, the checkpoints of the first and the log of the
      second. */
  lemma {:induction false} ReadAcross(run: Run, later: Run)
    requires Inv(run) && Inv(later) && Extends(run, later)
    ensures var returned := LatestWith(run.checkpoints, Accepted);
      StateOf(run.checkpoints, later.log, returned, EventsAfter(later.log, AfterSeq(returned)))
  {
    var returned := LatestWith(run.checkpoints, Accepted);
    hide Inv, Extends, OneResult, LatestWith, ResultOf, AfterDecision;
    InvOneResult(later);
    if returned.Some? {
      hide EventsAfter;
      SettledAcross(run, later, returned.value);
      EventsFrom(later.log, returned.value.decisionSeq.value, returned.value.toolCallId);
    }
  }

  /** state() with nobody writing in between. */
  lemma {:induction false} StateIsExact(run: Run)
    requires Inv(run)
    ensures var returned := LatestWith(run.checkpoints, Accepted);
      StateOf(run.checkpoints, run.log, returned, EventsAfter(run.log, AfterSeq(returned)))
  {
    hide Inv, StateOf, LatestWith, EventsAfter;
    SameExtends(run);
    ReadAcross(run, run);
  }

  lemma {:induction false} SameExtends(run: Run)
    ensures Extends(run, run)
  {
  }

  /** state() with any transactions between its two reads. */
  lemma {:induction false} SplitStateIsExact(run: Run, ops: seq<Op>)
    requires Inv(run) && AgentOps(ops)
    ensures var returned, later := LatestWith(run.checkpoints, Accepted), Exec(run, ops).log;
      StateOf(run.checkpoints, later, returned, EventsAfter(later, AfterSeq(returned)))
  {
    hide Inv, Exec, StateOf, LatestWith, EventsAfter, RowKept;
    ExecPreserves(run, ops);
    ExecExtends(run, ops);
    ReadAcross(run, Exec(run, ops));
  }

  lemma {:induction false} AcceptedRowOk(run: Run, row: Checkpoint)
    requires Inv(run) && row in run.checkpoints && row.status.Accepted?
    ensures row.decisionSeq.Some? && 0 <= row.decisionSeq.value < |run.log| - 1
    ensures run.log[row.decisionSeq.value] == DecisionEvent(row.id, true, row.verification.value)
  {
    hide LogOk, StatusOk, Materialised;
    var k :| 0 <= k < |run.checkpoints| && run.checkpoints[k] == row;
    assert RowOk(run.log, run.checkpoints[k]);
  }

  /** Read in one transaction, the returned events contain no acceptance: the
      accepted checkpoint with the highest round is the last one accepted. */
  lemma {:induction false} AtomicReadIsLatest(run: Run)
    requires Inv(run)
    ensures !AcceptedEventIn(EventsAfter(run.log, AfterSeq(LatestWith(run.checkpoints, Accepted))))
  {
    hide Inv;
    var latest := LatestWith(run.checkpoints, Accepted);
    var events := EventsAfter(run.log, AfterSeq(latest));
    var skipped := |run.log| - |events|;
    forall i | 0 <= i < |events|
      ensures !events[i].kind.CheckpointAccepted?
    {
      if run.log[skipped + i].kind.CheckpointAccepted? {
        var k := RowAcceptedAt(run, skipped + i);
        AcceptedRowOk(run, latest.value);
        var l :| 0 <= l < |run.checkpoints| && run.checkpoints[l] == latest.value;
        OrderedRows(run);
        DecidedAfterProposal(run, l);
        DecidedInOrder(run.checkpoints, k, l);
      }
    }
  }

  lemma {:induction false} AcceptanceHasRow(log: seq<Event>, rows: seq<Checkpoint>, i: nat) returns (k: nat)
    requires KeyOrigins(log, rows) && i < |log| && EventShape(log[i]) && log[i].kind.CheckpointAccepted?
    ensures k < |rows| && rows[k].id == log[i].payload.checkpointId && rows[k].status.Accepted?
  {
    hide HasRow;
    var id := log[i].payload.checkpointId;
    assert HasDecided(rows, id, true);
    k :| 0 <= k < |rows| && rows[k].id == id && rows[k].status == Verdict(true);
  }

  lemma {:induction false} DecisionPlace(log: seq<Event>, row: Checkpoint, i: nat)
    requires KeysUnique(log) && RowOk(log, row) && row.status.Accepted?
    requires i < |log| && log[i].key == Some(DecidedKey(row.id, true))
    ensures row.decisionSeq == Some(i)
  {
    hide PendingStandalone;
    assert log[row.decisionSeq.value].key == log[i].key;
  }

  /** Each acceptance in the log is the decision of one accepted row. */
  lemma {:induction false} RowAcceptedAt(run: Run, i: nat) returns (k: nat)
    requires Inv(run) && i < |run.log| && run.log[i].kind.CheckpointAccepted?
    ensures k < |run.checkpoints| && run.checkpoints[k].status.Accepted? && run.checkpoints[k].decisionSeq == Some(i)
  {
    hide StatusOk, Materialised, KeysUnique, ResultsFollow, OneResult, RowsOrdered, KeyOrigins, RowOk;
    assert EventShape(run.log[i]);
    k := AcceptanceHasRow(run.log, run.checkpoints, i);
    DecisionPlace(run.log, run.checkpoints[k], i);
  }

  lemma {:induction false} DecidedAfterProposal(run: Run, k: nat)
    requires Inv(run) && k < |run.checkpoints| && run.checkpoints[k].decisionSeq.Some?
    ensures run.checkpoints[k].basedOn < run.checkpoints[k].decisionSeq.value
  {
    hide LogOk, StatusOk, Materialised, PendingStandalone, KeyOrigins;
    assert RowOk(run.log, run.checkpoints[k]);
  }

  lemma {:induction false} DecidedInOrder(rows: seq<Checkpoint>, k: nat, l: nat)
    requires RowsOrdered(rows) && k < |rows| && l < |rows| && rows[k].round <= rows[l].round
    requires rows[k].decisionSeq.Some? && rows[l].decisionSeq.Some? && rows[l].basedOn < rows[l].decisionSeq.value
    ensures rows[k].decisionSeq.value <= rows[l].decisionSeq.value
  {
  }

  lemma {:induction false} AcceptedAcross(first: seq<Event>, second: seq<Event>)
    ensures AcceptedEventIn(first + second) <==> AcceptedEventIn(first) || AcceptedEventIn(second)
  {
    var both := first + second;
    if i :| 0 <= i < |first| && first[i].kind.CheckpointAccepted? {
      assert both[i] == first[i];
    }
    if i :| 0 <= i < |second| && second[i].kind.CheckpointAccepted? {
      assert both[|first| + i] == second[i];
    }
    if i :| 0 <= i < |both| && both[i].kind.CheckpointAccepted? {
      assert i < |first| ==> first[i] == both[i];
      assert i >= |first| ==> second[i - |first|] == both[i];
    }
  }

  lemma {:induction false} SuffixSplits(log: seq<Event>, later: seq<Event>, afterSeq: int)
    requires log <= later && -1 <= afterSeq < |log|
    ensures EventsAfter(later, afterSeq) == EventsAfter(log, afterSeq) + later[|log|..]
  {
    assert later == log + later[|log|..];
  }

  /** A row of a later state that was decided at a sequence number of the earlier
      one is a row of the earlier one. */
  lemma {:induction false} DecidedEarlier(run: Run, later: Run, row: Checkpoint)
    requires Inv(run) && Inv(later) && Extends(run, later)
    ensures row in later.checkpoints && row.status.Accepted? && row.decisionSeq.Some? && row.decisionSeq.value < |run.log| ==>
      row in run.checkpoints
  {
    hide Inv, RowKept;
    if row in later.checkpoints && row.status.Accepted? && row.decisionSeq.Some? && row.decisionSeq.value < |run.log| {
      var d := row.decisionSeq.value;
      AcceptedRowOk(later, row);
      assert run.log[d] == later.log[d];
      var k := RowAcceptedAt(run, d);
      AcceptedRowOk(run, run.checkpoints[k]);
      assert run.checkpoints[k] == later.checkpoints[k] by {
        SettledRowKept(run, later, k);
      }
      var l :| 0 <= l < |later.checkpoints| && later.checkpoints[l] == row;
      OrderedRows(later);
      SameId(later.checkpoints, k, l);
    }
  }

  lemma {:induction false} SettledRowKept(run: Run, later: Run, k: nat)
    requires Extends(run, later) && k < |run.checkpoints| && !run.checkpoints[k].status.Candidate?
    ensures k < |later.checkpoints| && later.checkpoints[k] == run.checkpoints[k]
  {
    assert RowKept(run.checkpoints[k], later.checkpoints[k]);
  }

  lemma {:induction false} SameId(rows: seq<Checkpoint>, k: nat, l: nat)
    requires RowsOrdered(rows) && k < |rows| && l < |rows|
    requires rows[k].id == rows[l].id || rows[k].round == rows[l].round
    ensures k == l
  {
  }

  lemma {:induction false} LatestInPlace(rows: seq<Checkpoint>, row: Checkpoint)
    requires RowsOrdered(rows) && row in rows && row.status.Accepted?
    requires forall k :: 0 <= k < |rows| && rows[k].status.Accepted? ==> rows[k].round <= row.round
    ensures LatestWith(rows, Accepted) == Some(row)
  {
    var latest := LatestWith(rows, Accepted).value;
    var k :| 0 <= k < |rows| && rows[k] == row;
    var l :| 0 <= l < |rows| && rows[l] == latest;
    SameId(rows, k, l);
  }

  lemma {:induction false} NoneAfter(log: seq<Event>, later: seq<Event>)
    requires log <= later && !AcceptedEventIn(later[|log|..])
    ensures forall d :: |log| <= d < |later| ==> !later[d].kind.CheckpointAccepted?
  {
    var suffix := later[|log|..];
    forall d | |log| <= d < |later|
      ensures !later[d].kind.CheckpointAccepted?
    {
      assert later[d] == suffix[d - |log|];
    }
  }

  lemma {:induction false} LatestKept(run: Run, later: Run)
    requires Inv(run) && Inv(later) && Extends(run, later)
    requires !AcceptedEventIn(later.log[|run.log|..])
    ensures LatestWith(later.checkpoints, Accepted) == LatestWith(run.checkpoints, Accepted)
  {
    var latest := LatestWith(later.checkpoints, Accepted);
    NoneAfter(run.log, later.log);
    hide Inv, Extends, LatestWith;
    if latest.Some? {
      AcceptedRowOk(later, latest.value);
      DecidedEarlier(run, later, latest.value);
      OrderedRows(run);
      forall k | 0 <= k < |run.checkpoints| && run.checkpoints[k].status.Accepted?
        ensures run.checkpoints[k].round <= latest.value.round
      {
        SettledRowKept(run, later, k);
      }
      LatestInPlace(run.checkpoints, latest.value);
    } else {
      forall k | 0 <= k < |run.checkpoints|
        ensures !run.checkpoints[k].status.Accepted?
      {
        if run.checkpoints[k].status.Accepted? {
          SettledRowKept(run, later, k);
        }
      }
    }
  }

  /** A checkpoint read in one state and the events read in a later one. */
  lemma {:induction false} TwoReads(run: Run, later: Run)
    requires Inv(run) && Inv(later) && Extends(run, later)
    ensures var returned := LatestWith(run.checkpoints, Accepted);
      && (AcceptedEventIn(EventsAfter(later.log, AfterSeq(returned))) <==> AcceptedEventIn(later.log[|run.log|..]))
      && (returned == LatestWith(later.checkpoints, Accepted) <==> !AcceptedEventIn(later.log[|run.log|..]))
  {
    var returned := LatestWith(run.checkpoints, Accepted);
    AtomicReadIsLatest(run);
    AtomicReadIsLatest(later);
    if returned.Some? {
      AcceptedRowOk(run, returned.value);
    }
    hide Inv, LatestWith, EventsAfter, RowKept;
    SuffixSplits(run.log, later.log, AfterSeq(returned));
    AcceptedAcross(EventsAfter(run.log, AfterSeq(returned)), later.log[|run.log|..]);
    if !AcceptedEventIn(later.log[|run.log|..]) {
      LatestKept(run, later);
    }
  }

  /** For any transactions between the two reads of state(): the returned events
      contain no acceptance, and the returned checkpoint is still the latest
      accepted one, exactly when none was accepted between the reads. */
  lemma {:induction false} SplitReadIsLatestIff(run: Run, ops: seq<Op>)
    requires Inv(run) && AgentOps(ops)
    ensures var returned, later := LatestWith(run.checkpoints, Accepted), Exec(run, ops);
      && run.log <= later.log
      && (AcceptedEventIn(EventsAfter(later.log, AfterSeq(returned))) <==> AcceptedEventIn(later.log[|run.log|..]))
      && (returned == LatestWith(later.checkpoints, Accepted) <==> !AcceptedEventIn(later.log[|run.log|..]))
  {
    hide Inv, Exec, LatestWith, EventsAfter, RowKept;
    ExecPreserves(run, ops);
    ExecExtends(run, ops);
    TwoReads(run, Exec(run, ops));
  }

  lemma {:induction false} AcceptanceAppends(run: Run, lease: Lease, now: int, id: int, verification: Value)
    requires Decide(run, lease, now, id, true, verification).Commit?
    ensures var later := Decide(run, lease, now, id, true, verification).run;
      run.log <= later.log && AcceptedEventIn(later.log[|run.log|..])
  {
    var row := Decide(run, lease, now, id, true, verification).value;
    var events := [DecisionEvent(id, true, verification), OutcomeEvent(row, true, verification)];
    InsertAllAppends(run.log, events);
    hide InsertAll;
    assert (run.log + events)[|run.log|..] == events;
    assert events[0].kind.CheckpointAccepted?;
  }

  /** It does happen: after an accepting decision between the two reads the
      returned checkpoint is not the latest, and the returned events contain the
      later acceptance. */
  lemma {:induction false} SplitReadMissesAcceptance(run: Run, lease: Lease, now: int, id: int, verification: Value)
    requires Inv(run)
    ensures Decide(run, lease, now, id, true, verification).Commit? ==>
      var returned, later := LatestWith(run.checkpoints, Accepted), Decide(run, lease, now, id, true, verification).run;
      && returned != LatestWith(later.checkpoints, Accepted)
      && AcceptedEventIn(EventsAfter(later.log, AfterSeq(returned)))
  {
    hide Inv, LatestWith, EventsAfter, Decide, Extends, AcceptedEventIn;
    if Decide(run, lease, now, id, true, verification).Commit? {
      AcceptanceAppends(run, lease, now, id, verification);
      DecidePreserves(run, lease, now, id, true, verification);
      NextExtends(run, DoDecide(lease, now, id, true, verification));
      TwoReads(run, Decide(run, lease, now, id, true, verification).run);
    }
  }
}

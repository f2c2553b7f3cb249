/** What holds of a run after any interleaving of agent and worker transactions:
    the shape of its log, and the checkpoint rows and the status as views of it. */
module Invariant {
  import opened Types
  import opened Keys
  import opened Runs

  // ---------- The log ----------

  const START := Event(StateTransition, Transition(Pending, Running), None)
  const FINISH := Event(StateTransition, Transition(Running, Completed), None)

  predicate EventShape(e: Event) {
    match e.kind
    case LlmCall => e.payload.Response? && e.key == None
    case ToolCall => e.payload.Intent? && e.key == Some(IntentKey(e.payload.callId))
    case ToolResult => e.payload.Outcome? && e.key.Some?
      && (e.key.value == ResultKey(e.payload.callId) || e.key.value.OutcomeKey?)
    case StateTransition => e.payload.Transition? && e.key == None
    case CheckpointProposed => e.payload.Proposal? && e.key == Some(ProposedKey(e.payload.checkpointId))
    case CheckpointAccepted => e.payload.Decision? && e.key == Some(DecidedKey(e.payload.checkpointId, true))
    case CheckpointRejected => e.payload.Decision? && e.key == Some(DecidedKey(e.payload.checkpointId, false))
  }

  predicate KeysUnique(log: seq<Event>) {
    forall i, j :: 0 <= i < j < |log| && log[i].key.Some? ==> log[i].key != log[j].key
  }

  /** A call with this id was recorded among the first n events. */
  predicate HasIntent(log: seq<Event>, n: nat, callId: string)
    requires n <= |log|
  {
    exists i :: 0 <= i < n && log[i].kind.ToolCall? && log[i].payload.CallId() == Some(callId)
  }

  predicate HasResult(log: seq<Event>, callId: string) {
    exists i :: 0 <= i < |log| && log[i].kind.ToolResult? && log[i].payload.CallId() == Some(callId)
  }

  predicate ResultsFollow(log: seq<Event>) {
    forall j :: 0 <= j < |log| && log[j].kind.ToolResult? ==>
      log[j].payload.CallId().Some? && HasIntent(log, j, log[j].payload.CallId().value)
  }

  predicate OneResult(log: seq<Event>) {
    forall i, j :: 0 <= i < j < |log| && log[i].kind.ToolResult? && log[j].kind.ToolResult? ==>
      !SameCall(log[i].payload, log[j].payload)
  }

  predicate LogOk(log: seq<Event>) {
    && (forall i :: 0 <= i < |log| ==> EventShape(log[i]))
    && KeysUnique(log)
    && ResultsFollow(log)
    && OneResult(log)
  }

  // ---------- The status and the lease columns ----------

  predicate StatusOk(status: Status, log: seq<Event>) {
    && status != Failed
    && (status == Pending <==> log == [])
    && (log != [] ==> log[0] == START)
    && (status == Completed ==> |log| > 1 && log[|log| - 1] == FINISH)
    && (forall i :: 0 < i < |log| && log[i].kind.StateTransition? ==> status == Completed && i == |log| - 1)
  }

  predicate LeaseOk(run: Run) {
    && (run.owner.None? <==> run.expires.None?)
    && (run.status == Completed ==> run.owner.None?)
  }

  /** The status a reader of the log arrives at. */
  function ReplayStatus(log: seq<Event>): Status {
    if log == [] then Pending
    else
      var last := log[|log| - 1];
      if last.kind.StateTransition? && last.payload.Transition? then last.payload.to
      else ReplayStatus(log[..|log| - 1])
  }

  // ---------- The checkpoint rows ----------

  function Verdict(accepted: bool): CheckpointStatus {
    if accepted then Accepted else Rejected
  }

  predicate HasRow(rows: seq<Checkpoint>, id: int) {
    exists k :: 0 <= k < |rows| && rows[k].id == id
  }

  predicate HasDecided(rows: seq<Checkpoint>, id: int, accepted: bool) {
    exists k :: 0 <= k < |rows| && rows[k].id == id && rows[k].status == Verdict(accepted)
  }

  predicate RowOk(log: seq<Event>, row: Checkpoint) {
    && 0 <= row.basedOn < |log| - 1
    && log[row.basedOn + 1] == ProposedEvent(row)
    && if row.status.Candidate? then
         row.decisionSeq.None? && row.verification.None? && PendingStandalone(log, row.toolCallId)
       else
         && row.decisionSeq.Some? && row.verification.Some?
         && row.basedOn + 1 < row.decisionSeq.value < |log| - 1
         && var accepted := row.status.Accepted?;
            && log[row.decisionSeq.value] == DecisionEvent(row.id, accepted, row.verification.value)
            && log[row.decisionSeq.value + 1] == OutcomeEvent(row, accepted, row.verification.value)
  }

  /** Every checkpoint key in the log belongs to a row that got that far. */
  predicate KeyOrigins(log: seq<Event>, rows: seq<Checkpoint>) {
    forall i :: 0 <= i < |log| && log[i].key.Some? ==>
      match log[i].key.value
      case ProposedKey(n) => HasRow(rows, n)
      case DecidedKey(n, accepted) => HasDecided(rows, n, accepted)
      case OutcomeKey(n) => HasDecided(rows, n, true) || HasDecided(rows, n, false)
      case _ => true
  }

  predicate RowsOrdered(rows: seq<Checkpoint>) {
    && (forall k :: 0 <= k < |rows| ==> rows[k].round == k + 1)
    && (forall k, l :: 0 <= k < l < |rows| ==> rows[k].id < rows[l].id)
    && (forall k :: 0 <= k < |rows| - 1 ==> !rows[k].status.Candidate?)
    && (forall k, l :: 0 <= k < l < |rows| ==>
          rows[k].decisionSeq.Some? && rows[k].decisionSeq.value + 1 <= rows[l].basedOn)
  }

  predicate RowsOk(log: seq<Event>, rows: seq<Checkpoint>) {
    && RowsOrdered(rows)
    && (forall k :: 0 <= k < |rows| ==> RowOk(log, rows[k]))
    && KeyOrigins(log, rows)
  }

  /** What the log alone tells about a checkpoint. The tool call id becomes
      known only with the result that follows the decision. */
  datatype CheckpointView = CheckpointView(
    id: int,
    round: int,
    state: CheckpointState,
    basedOn: int,
    status: CheckpointStatus,
    verification: Option<Value>,
    decisionSeq: Option<int>,
    toolCallId: Option<string>)

  function RowView(row: Checkpoint): CheckpointView {
    CheckpointView(row.id, row.round, row.state, row.basedOn, row.status, row.verification, row.decisionSeq,
                   if row.status.Candidate? then None else Some(row.toolCallId))
  }

  function RowViews(rows: seq<Checkpoint>): seq<CheckpointView> {
    seq(|rows|, k requires 0 <= k < |rows| => RowView(rows[k]))
  }

  function ViewIndex(views: seq<CheckpointView>, id: int): (k: nat)
    ensures k <= |views|
    ensures k < |views| ==> views[k].id == id
    ensures forall j :: k < j < |views| ==> views[j].id != id
    ensures k == |views| ==> forall j :: 0 <= j < |views| ==> views[j].id != id
  {
    if views == [] then 0
    else
      var n := |views| - 1;
      if views[n].id == id then n
      else
        var k := ViewIndex(views[..n], id);
        if k == n then |views| else k
  }

  function RebuildStep(views: seq<CheckpointView>, seqNo: int, e: Event): seq<CheckpointView> {
    match e.payload
    case Proposal(id, round, state) =>
      if e.kind.CheckpointProposed? then
        views + [CheckpointView(id, round, state, seqNo - 1, Candidate, None, None, None)]
      else views
    case Decision(id, verification) =>
      var k := ViewIndex(views, id);
      if (e.kind.CheckpointAccepted? || e.kind.CheckpointRejected?) && k < |views| then
        views[k := views[k].(status := if e.kind.CheckpointAccepted? then Accepted else Rejected,
                             verification := Some(verification),
                             decisionSeq := Some(seqNo))]
      else views
    case Outcome(callId, _) =>
      if e.kind.ToolResult? && views != [] && views[|views| - 1].decisionSeq == Some(seqNo - 1) then
        views[|views| - 1 := views[|views| - 1].(toolCallId := Some(callId))]
      else views
    case _ => views
  }

  /** The checkpoint table as a fold of the log. */
  function Rebuild(log: seq<Event>): seq<CheckpointView> {
    if log == [] then []
    else RebuildStep(Rebuild(log[..|log| - 1]), |log| - 1, log[|log| - 1])
  }

  predicate Materialised(log: seq<Event>, rows: seq<Checkpoint>) {
    RowViews(rows) == Rebuild(log)
  }

  predicate Inv(run: Run) {
    && LogOk(run.log)
    && StatusOk(run.status, run.log)
    && LeaseOk(run)
    && RowsOk(run.log, run.checkpoints)
    && Materialised(run.log, run.checkpoints)
  }

  // ---------- Appending one event ----------

  lemma {:induction false} RebuildAppend(log: seq<Event>, e: Event)
    ensures Rebuild(log + [e]) == RebuildStep(Rebuild(log), |log|, e)
  {
    assert (log + [e])[..|log|] == log;
  }

  /** A result may be appended only once, after its call. */
  predicate MayFollow(log: seq<Event>, e: Event)
  {
    EventShape(e) && !KeyTaken(log, e.key)
    && (e.kind.ToolResult? ==> HasIntent(log, |log|, e.payload.callId) && !HasResult(log, e.payload.callId))
  }

  lemma {:induction false} AppendLog(log: seq<Event>, e: Event)
    requires LogOk(log) && MayFollow(log, e)
    ensures LogOk(log + [e])
  {
    var longer := log + [e];
    forall j | 0 <= j < |longer| && longer[j].kind.ToolResult?
      ensures longer[j].payload.CallId().Some? && HasIntent(longer, j, longer[j].payload.CallId().value)
    {
      var i :| 0 <= i < j && log[i].kind.ToolCall? && log[i].payload.CallId() == longer[j].payload.CallId();
      assert longer[i] == log[i];
    }
  }

  /** Events other than the call's own result keep an intent pending. */
  lemma {:induction false} StillPending(log: seq<Event>, e: Event, callId: string)
    requires PendingStandalone(log, callId)
    requires e.kind.ToolResult? ==> e.payload.CallId() != Some(callId)
    ensures PendingStandalone(log + [e], callId)
  {
    var i :| 0 <= i < |log| && log[i].kind.ToolCall? && log[i].payload.CallId() == Some(callId)
      && log[i].payload.Name() == Some(CHECKPOINT_TOOL) && log[i].payload.ToolCount() == 1 && IsPending(log, i);
    assert (log + [e])[i] == log[i];
    assert IsPending(log + [e], i);
  }

  lemma {:induction false} RowStays(log: seq<Event>, row: Checkpoint, e: Event)
    requires RowOk(log, row)
    requires row.status.Candidate? && e.kind.ToolResult? ==> e.payload.CallId() != Some(row.toolCallId)
    ensures RowOk(log + [e], row)
  {
    if row.status.Candidate? {
      StillPending(log, e, row.toolCallId);
      hide PendingStandalone;
    }
  }

  /** An event without a checkpoint key leaves the rebuilt table alone, since
      every decision in the log has its result. */
  lemma {:induction false} RebuildBeside(log: seq<Event>, rows: seq<Checkpoint>, e: Event)
    requires RowsOk(log, rows) && Materialised(log, rows)
    requires e.kind.LlmCall? || e.kind.ToolCall? || e.kind.ToolResult? || e.kind.StateTransition?
    requires EventShape(e)
    ensures Materialised(log + [e], rows)
  {
    RebuildAppend(log, e);
    if rows != [] {
      assert RowOk(log, rows[|rows| - 1]);
      assert RowViews(rows)[|rows| - 1] == RowView(rows[|rows| - 1]);
    }
    hide Rebuild, RowOk, RowsOk;
  }

  /** No row changes: any event that is not a checkpoint event or the result of
      the candidate's own call. */
  lemma {:induction false} AppendBesideRows(log: seq<Event>, rows: seq<Checkpoint>, e: Event)
    requires RowsOk(log, rows) && Materialised(log, rows)
    requires e.kind.LlmCall? || e.kind.ToolCall? || e.kind.ToolResult? || e.kind.StateTransition?
    requires EventShape(e)
    requires e.kind.ToolResult? ==> e.key == Some(ResultKey(e.payload.callId))
    requires e.kind.ToolResult? ==> forall k :: 0 <= k < |rows| && rows[k].status.Candidate? ==>
      rows[k].toolCallId != e.payload.callId
    ensures RowsOk(log + [e], rows) && Materialised(log + [e], rows)
  {
    RebuildBeside(log, rows, e);
    hide Materialised, RowOk, KeyOrigins, RowsOrdered;
    forall k | 0 <= k < |rows|
      ensures RowOk(log + [e], rows[k])
    {
      RowStays(log, rows[k], e);
    }
    OriginsExtend(log, rows, rows, e);
  }

  lemma {:induction false} ActiveStatusOk(status: Status, log: seq<Event>, e: Event)
    requires StatusOk(status, log) && status == Running && !e.kind.StateTransition?
    ensures StatusOk(status, log + [e])
  {
  }

  lemma {:induction false} AppendPlain(run: Run, e: Event)
    requires Inv(run) && run.status == Running
    requires e.kind.LlmCall? || e.kind.ToolCall?
    requires MayFollow(run.log, e)
    ensures Inv(run.(log := run.log + [e]))
  {
    hide LogOk, StatusOk, RowsOk, Materialised;
    AppendLog(run.log, e);
    AppendBesideRows(run.log, run.checkpoints, e);
    ActiveStatusOk(run.status, run.log, e);
  }

  // ---------- Each transaction ----------

  /** A call has at most one intent, and its results come later; so a pending
      call has no result at all. */
  lemma {:induction false} PendingHasNoResult(log: seq<Event>, i: nat)
    requires LogOk(log) && i < |log| && IsPending(log, i)
    ensures !HasResult(log, log[i].payload.callId)
  {
    assert EventShape(log[i]);
    forall j | 0 <= j < |log| && log[j].kind.ToolResult?
      ensures log[j].payload.CallId() != Some(log[i].payload.callId)
    {
      if j <= i {
        var first :| 0 <= first < j && log[first].kind.ToolCall? && log[first].payload.CallId() == log[j].payload.CallId();
        assert EventShape(log[first]) && log[first].key != log[i].key;
      }
    }
  }

  lemma {:induction false} StandaloneHasNoResult(log: seq<Event>, callId: string)
    requires LogOk(log) && PendingStandalone(log, callId)
    ensures HasIntent(log, |log|, callId) && !HasResult(log, callId)
  {
    var i :| 0 <= i < |log| && log[i].kind.ToolCall? && log[i].payload.CallId() == Some(callId)
      && log[i].payload.Name() == Some(CHECKPOINT_TOOL) && log[i].payload.ToolCount() == 1 && IsPending(log, i);
    PendingHasNoResult(log, i);
  }

  /** The one intent with an id. */
  lemma {:induction false} IntentUnique(log: seq<Event>, i: nat, j: nat)
    requires LogOk(log) && i < |log| && j < |log|
    requires log[i].kind.ToolCall? && log[j].kind.ToolCall? && log[i].payload.CallId() == log[j].payload.CallId()
    ensures i == j
  {
    assert EventShape(log[i]) && EventShape(log[j]);
  }

  lemma {:induction false} InsertAllAppends(log: seq<Event>, events: seq<Event>)
    requires InsertAll(log, events).Ok?
    ensures InsertAll(log, events).value == log + events
    decreases |events|
  {
    if events != [] {
      InsertAllAppends(log + [events[0]], events[1..]);
      assert log + [events[0]] + events[1..] == log + events;
    } else {
      assert log + events == log;
    }
  }

  lemma {:induction false} IntentsPreserve(run: Run, events: seq<Event>)
    requires Inv(run) && run.status == Running
    requires forall i :: 0 <= i < |events| ==> events[i].kind.ToolCall? && EventShape(events[i])
    requires InsertAll(run.log, events).Ok?
    ensures Inv(run.(log := run.log + events))
    decreases |events|
  {
    hide Inv;
    if events == [] {
      assert run.log + events == run.log;
    } else {
      AppendPlain(run, events[0]);
      IntentsPreserve(run.(log := run.log + [events[0]]), events[1..]);
      assert run.log + [events[0]] + events[1..] == run.log + events;
    }
  }

  lemma {:induction false} BatchPreserves(run: Run, first: Event, rest: seq<Event>)
    requires Inv(run) && run.status == Running
    requires first.kind.LlmCall? && EventShape(first)
    requires forall i :: 0 <= i < |rest| ==> rest[i].kind.ToolCall? && EventShape(rest[i])
    requires InsertAll(run.log + [first], rest).Ok?
    ensures Inv(run.(log := run.log + [first] + rest))
  {
    hide Inv;
    AppendPlain(run, first);
    IntentsPreserve(run.(log := run.log + [first]), rest);
  }

  lemma {:induction false} RespondPreserves(run: Run, lease: Lease, now: int, response: Payload)
    requires Inv(run) && response.Response?
    ensures Inv(AppendResponse(run, lease, now, response, IntentsFor(response.calls)).After(run))
  {
    hide Inv;
    var first, rest := Event(LlmCall, response, None), IntentEvents(IntentsFor(response.calls));
    var outcome := AppendResponse(run, lease, now, response, IntentsFor(response.calls));
    if outcome.Commit? {
      InsertAllAppends(run.log, [first] + rest);
      assert ([first] + rest)[1..] == rest;
      BatchPreserves(run, first, rest);
      assert run.log + [first] + rest == run.log + ([first] + rest);
    }
  }

  lemma {:induction false} TransitionStatusOk(from: Status, to: Status, log: seq<Event>)
    requires StatusOk(from, log)
    requires (from == Pending && to == Running) || (from == Running && to == Completed)
    ensures StatusOk(to, log + [TransitionEvent(from, to)])
  {
    var longer := log + [TransitionEvent(from, to)];
    assert longer[|log|] == TransitionEvent(from, to);
    assert forall i :: 0 <= i < |log| ==> longer[i] == log[i];
  }

  lemma {:induction false} TransitionPreserves(run: Run, status: Status)
    requires Inv(run)
    requires (run.status == Pending && status == Running) || (run.status == Running && status == Completed)
    requires status == Completed ==> run.owner.None?
    ensures Inv(run.(status := status, log := run.log + [TransitionEvent(run.status, status)]))
  {
    hide LogOk, StatusOk, RowsOk, Materialised;
    var e := TransitionEvent(run.status, status);
    assert MayFollow(run.log, e);
    AppendLog(run.log, e);
    AppendBesideRows(run.log, run.checkpoints, e);
    TransitionStatusOk(run.status, status, run.log);
  }

  lemma {:induction false} ResultPreserves(run: Run, lease: Lease, now: int, callId: string, content: Value)
    requires Inv(run)
    ensures Inv(RecordResult(run, lease, now, callId, content).After(run))
  {
    hide StatusOk, RowsOk, Materialised;
    var result := RecordResult(run, lease, now, callId, content);
    var event := Event(ToolResult, Outcome(callId, content), Some(ResultKey(callId)));
    if result.Commit? && result.run != run {
      var intent := FirstOf(run.log, ToolCall, callId);
      AppendLog(run.log, event);
      forall k | 0 <= k < |run.checkpoints| && run.checkpoints[k].status.Candidate?
        ensures run.checkpoints[k].toolCallId != callId
      {
        CandidateIsCheckpointCall(run, k, intent);
      }
      AppendBesideRows(run.log, run.checkpoints, event);
      ActiveStatusOk(run.status, run.log, event);
    }
  }

  /** The tool of a candidate's call is submit_checkpoint, which
      record_tool_result refuses. */
  lemma {:induction false} CandidateIsCheckpointCall(run: Run, k: nat, intent: nat)
    requires Inv(run) && k < |run.checkpoints| && run.checkpoints[k].status.Candidate?
    requires intent < |run.log| && run.log[intent].kind.ToolCall?
    requires run.log[intent].payload.Name() != Some(CHECKPOINT_TOOL)
    ensures run.log[intent].payload.CallId() != Some(run.checkpoints[k].toolCallId)
  {
    var log, callId := run.log, run.checkpoints[k].toolCallId;
    assert RowOk(log, run.checkpoints[k]);
    var i :| 0 <= i < |log| && log[i].kind.ToolCall? && log[i].payload.CallId() == Some(callId)
      && log[i].payload.Name() == Some(CHECKPOINT_TOOL) && log[i].payload.ToolCount() == 1 && IsPending(log, i);
    if log[intent].payload.CallId() == Some(callId) {
      IntentUnique(log, i, intent);
    }
  }

  // ---------- Proposing ----------

  lemma {:induction false} MaxRoundIsCount(rows: seq<Checkpoint>)
    requires rows != [] && forall k :: 0 <= k < |rows| ==> rows[k].round == k + 1
    ensures MaxRound(rows) == |rows|
  {
    if |rows| > 1 {
      MaxRoundIsCount(rows[..|rows| - 1]);
    }
  }

  /** The rows of a run never stand in the way of a new one. */
  lemma {:induction false} ProposeIsUnique(run: Run, callId: string)
    requires Inv(run) && PendingStandalone(run.log, callId) && !HasCandidate(run.checkpoints)
    ensures NextRound(run.checkpoints) == |run.checkpoints| + 1
    ensures !ViolatesUnique(run.checkpoints, NextRound(run.checkpoints), callId)
  {
    hide Materialised, KeyOrigins, StatusOk;
    var rows := run.checkpoints;
    if rows != [] {
      MaxRoundIsCount(rows);
    }
    StandaloneHasNoResult(run.log, callId);
    forall k | 0 <= k < |rows|
      ensures rows[k].toolCallId != callId
    {
      assert RowOk(run.log, rows[k]);
      assert run.log[rows[k].decisionSeq.value + 1].payload.CallId() == Some(rows[k].toolCallId);
    }
  }

  lemma {:induction false} ProposedKeyFree(run: Run, id: int)
    requires Inv(run) && FreshId(run, id)
    ensures !KeyTaken(run.log, Some(ProposedKey(id)))
  {
    forall i | 0 <= i < |run.log|
      ensures run.log[i].key != Some(ProposedKey(id))
    {
      assert !HasRow(run.checkpoints, id);
    }
  }

  lemma {:induction false} RowsGrow(rows: seq<Checkpoint>, row: Checkpoint)
    ensures forall id :: HasRow(rows + [row], id) <==> HasRow(rows, id) || id == row.id
    ensures forall id, accepted :: HasDecided(rows, id, accepted) ==> HasDecided(rows + [row], id, accepted)
  {
    var more := rows + [row];
    assert more[|rows|] == row && forall k :: 0 <= k < |rows| ==> more[k] == rows[k];
    forall id | HasRow(rows, id) || id == row.id
      ensures HasRow(more, id)
    {
      if id != row.id {
        var k :| 0 <= k < |rows| && rows[k].id == id;
        assert more[k].id == id;
      } else {
        assert more[|rows|].id == id;
      }
    }
    forall id, accepted | HasDecided(rows, id, accepted)
      ensures HasDecided(more, id, accepted)
    {
      var k :| 0 <= k < |rows| && rows[k].id == id && rows[k].status == Verdict(accepted);
      assert more[k] == rows[k];
    }
  }

  lemma {:induction false} ProposedRowsOk(log: seq<Event>, rows: seq<Checkpoint>, row: Checkpoint)
    requires RowsOk(log, rows) && !HasCandidate(rows) && log != []
    requires row.round == |rows| + 1 && row.basedOn == |log| - 1 && row.status.Candidate?
    requires row.decisionSeq.None? && row.verification.None?
    requires forall k :: 0 <= k < |rows| ==> rows[k].id < row.id
    requires PendingStandalone(log, row.toolCallId)
    ensures RowsOk(log + [ProposedEvent(row)], rows + [row])
  {
    hide KeyOrigins, PendingStandalone, HasRow, HasDecided;
    var longer := log + [ProposedEvent(row)];
    forall k | 0 <= k < |rows|
      ensures RowOk(longer, rows[k]) && rows[k].decisionSeq.Some? && rows[k].decisionSeq.value + 1 <= row.basedOn
    {
      assert RowOk(log, rows[k]);
    }
    StillPending(log, ProposedEvent(row), row.toolCallId);
    assert RowOk(longer, row);
    RowsGrow(rows, row);
    OriginsExtend(log, rows, rows + [row], ProposedEvent(row));
  }

  lemma {:induction false} NeverFailed(run: Run)
    requires Inv(run)
    ensures run.status != Failed
  {
  }

  lemma {:induction false} LogNonempty(run: Run)
    requires Inv(run) && run.status != Pending
    ensures run.log != []
  {
  }

  lemma {:induction false} ProposedInv(run: Run, row: Checkpoint)
    requires Inv(run) && run.status == Running && !HasCandidate(run.checkpoints)
    requires PendingStandalone(run.log, row.toolCallId)
    requires row == Checkpoint(row.id, |run.checkpoints| + 1, row.toolCallId, |run.log| - 1, None, Candidate, row.state, None)
    requires FreshId(run, row.id) && MayFollow(run.log, ProposedEvent(row))
    ensures Inv(run.(log := run.log + [ProposedEvent(row)], checkpoints := run.checkpoints + [row]))
  {
    hide LogOk, StatusOk, RowsOk;
    assert run.log != [] by {
      LogNonempty(run);
    }
    AppendLog(run.log, ProposedEvent(row));
    RebuildAppend(run.log, ProposedEvent(row));
    ProposedRowsOk(run.log, run.checkpoints, row);
    assert RowViews(run.checkpoints + [row]) == RowViews(run.checkpoints) + [RowView(row)];
    ActiveStatusOk(run.status, run.log, ProposedEvent(row));
  }

  lemma {:induction false} ProposePreserves(run: Run, lease: Lease, now: int, callId: string, state: CheckpointState, id: int)
    requires Inv(run) && FreshId(run, id)
    ensures Inv(Propose(run, lease, now, callId, state, id).After(run))
  {
    hide Inv, PendingStandalone, ViolatesUnique;
    var result := Propose(run, lease, now, callId, state, id);
    if result.Commit? {
      ProposeIsUnique(run, callId);
      ProposedInv(run, result.value);
    }
  }

  // ---------- Deciding ----------

  lemma {:induction false} DecisionKeysFree(run: Run, k: nat)
    requires Inv(run) && k < |run.checkpoints| && run.checkpoints[k].status.Candidate?
    ensures forall accepted :: !KeyTaken(run.log, Some(DecidedKey(run.checkpoints[k].id, accepted)))
    ensures !KeyTaken(run.log, Some(OutcomeKey(run.checkpoints[k].id)))
  {
    hide LogOk, StatusOk, Materialised, RowOk;
    var id := run.checkpoints[k].id;
    assert !HasDecided(run.checkpoints, id, true) && !HasDecided(run.checkpoints, id, false);
    assert forall i :: 0 <= i < |run.log| && run.log[i].key.Some? ==>
      run.log[i].key.value != OutcomeKey(id) && forall accepted :: run.log[i].key.value != DecidedKey(id, accepted);
  }

  /** The two events of a decision always fit the log. */
  lemma {:induction false} DecisionFits(run: Run, k: nat, accepted: bool, verification: Value)
    requires Inv(run) && k < |run.checkpoints| && run.checkpoints[k].status.Candidate?
    ensures var row := run.checkpoints[k];
      var decision, outcome := DecisionEvent(row.id, accepted, verification), OutcomeEvent(row, accepted, verification);
      MayFollow(run.log, decision) && MayFollow(run.log + [decision], outcome)
  {
    var row := run.checkpoints[k];
    var decision, outcome := DecisionEvent(row.id, accepted, verification), OutcomeEvent(row, accepted, verification);
    DecisionKeysFree(run, k);
    assert RowOk(run.log, row);
    StandaloneHasNoResult(run.log, row.toolCallId);
    ResultStillFits(run.log, decision, outcome);
  }

  lemma {:induction false} ResultStillFits(log: seq<Event>, e: Event, result: Event)
    requires MayFollow(log, result) && result.kind.ToolResult?
    requires !e.kind.ToolResult? && e.key.Some? && e.key != result.key
    ensures MayFollow(log + [e], result)
  {
    var i :| 0 <= i < |log| && log[i].kind.ToolCall? && log[i].payload.CallId() == Some(result.payload.callId);
    assert (log + [e])[i] == log[i];
  }

  lemma {:induction false} DecidedInv(run: Run, k: nat, accepted: bool, verification: Value)
    requires Inv(run) && run.status == Running && k < |run.checkpoints| && run.checkpoints[k].status.Candidate?
    ensures var row := DecidedRow(run.checkpoints[k], |run.log|, accepted, verification);
      Inv(run.(log := run.log + [DecisionEvent(row.id, accepted, verification)] + [OutcomeEvent(row, accepted, verification)],
               checkpoints := run.checkpoints[k := row]))
  {
    var log, rows := run.log, run.checkpoints;
    var row := DecidedRow(rows[k], |log|, accepted, verification);
    var decision, outcome := DecisionEvent(row.id, accepted, verification), OutcomeEvent(row, accepted, verification);
    hide LogOk, StatusOk, RowsOk, Materialised, MayFollow;
    assert RowsOrdered(rows) by {
      OrderedRows(run);
    }
    DecisionFits(run, k, accepted, verification);
    assert OutcomeEvent(rows[k], accepted, verification) == outcome;
    AppendLog(log, decision);
    AppendLog(log + [decision], outcome);
    DecidedRowsOk(log, rows, k, accepted, verification);
    DecidedViews(log, rows, k, accepted, verification);
    ActiveStatusOk(run.status, log, decision);
    ActiveStatusOk(run.status, log + [decision], outcome);
  }

  lemma {:induction false} OrderedRows(run: Run)
    requires Inv(run)
    ensures RowsOrdered(run.checkpoints)
  {
  }

  lemma {:induction false} DecidePreserves(run: Run, lease: Lease, now: int, id: int, accepted: bool, verification: Value)
    requires Inv(run)
    ensures Inv(Decide(run, lease, now, id, accepted, verification).After(run))
  {
    hide Inv, KeyTaken, PendingStandalone;
    var log, rows := run.log, run.checkpoints;
    var k := CandidateIndex(rows, id);
    if Writable(run, lease, now) && k < |rows| {
      var row := DecidedRow(rows[k], |log|, accepted, verification);
      var decision, outcome := DecisionEvent(id, accepted, verification), OutcomeEvent(row, accepted, verification);
      DecisionFits(run, k, accepted, verification);
      assert OutcomeEvent(rows[k], accepted, verification) == outcome;
      InsertTwo(log, decision, outcome);
      DecidedInv(run, k, accepted, verification);
    }
  }

  lemma {:induction false} DecidedRowsOk(log: seq<Event>, rows: seq<Checkpoint>, k: nat, accepted: bool, verification: Value)
    requires RowsOk(log, rows) && k < |rows| && rows[k].status.Candidate?
    ensures var row := DecidedRow(rows[k], |log|, accepted, verification);
      RowsOk(log + [DecisionEvent(row.id, accepted, verification)] + [OutcomeEvent(row, accepted, verification)], rows[k := row])
  {
    hide KeyOrigins, PendingStandalone;
    var row := DecidedRow(rows[k], |log|, accepted, verification);
    var decision, outcome := DecisionEvent(row.id, accepted, verification), OutcomeEvent(row, accepted, verification);
    var longer := log + [decision] + [outcome];
    assert RowOk(log, rows[k]);
    assert forall i :: 0 <= i < |log| ==> longer[i] == log[i];
    assert longer[|log|] == decision && longer[|log| + 1] == outcome;
    var decided := rows[k := row];
    forall l | 0 <= l < |rows|
      ensures RowOk(longer, decided[l])
    {
      assert RowOk(log, rows[l]);
    }
    RowDecided(rows, k, row);
    assert row.status == Verdict(accepted);
    OriginsExtend(log, rows, decided, decision);
    OriginsExtend(log + [decision], decided, decided, outcome);
  }

  lemma {:induction false} OriginsExtend(log: seq<Event>, rows: seq<Checkpoint>, rows': seq<Checkpoint>, e: Event)
    requires KeyOrigins(log, rows)
    requires forall id :: HasRow(rows, id) ==> HasRow(rows', id)
    requires forall id, accepted :: HasDecided(rows, id, accepted) ==> HasDecided(rows', id, accepted)
    requires e.key.Some? ==>
      match e.key.value
      case ProposedKey(n) => HasRow(rows', n)
      case DecidedKey(n, accepted) => HasDecided(rows', n, accepted)
      case OutcomeKey(n) => HasDecided(rows', n, true) || HasDecided(rows', n, false)
      case _ => true
    ensures KeyOrigins(log + [e], rows')
  {
    hide HasRow, HasDecided;
  }

  lemma {:induction false} RowDecided(rows: seq<Checkpoint>, k: nat, row: Checkpoint)
    requires k < |rows| && row.id == rows[k].id && rows[k].status.Candidate?
    ensures forall id :: HasRow(rows, id) ==> HasRow(rows[k := row], id)
    ensures forall id, accepted :: HasDecided(rows, id, accepted) ==> HasDecided(rows[k := row], id, accepted)
    ensures forall accepted :: row.status == Verdict(accepted) ==> HasDecided(rows[k := row], row.id, accepted)
  {
    var decided := rows[k := row];
    forall id | HasRow(rows, id)
      ensures HasRow(decided, id)
    {
      var l :| 0 <= l < |rows| && rows[l].id == id;
      assert decided[l].id == id;
    }
    assert decided[k] == row;
    forall id, accepted | HasDecided(rows, id, accepted)
      ensures HasDecided(decided, id, accepted)
    {
      var l :| 0 <= l < |rows| && rows[l].id == id && rows[l].status == Verdict(accepted);
      assert decided[l] == rows[l];
    }
  }

  lemma {:induction false} DecidedViews(log: seq<Event>, rows: seq<Checkpoint>, k: nat, accepted: bool, verification: Value)
    requires RowsOrdered(rows) && Materialised(log, rows) && k < |rows| && rows[k].status.Candidate?
    ensures var row := DecidedRow(rows[k], |log|, accepted, verification);
      Materialised(log + [DecisionEvent(row.id, accepted, verification)] + [OutcomeEvent(row, accepted, verification)], rows[k := row])
  {
    var row := DecidedRow(rows[k], |log|, accepted, verification);
    var decision, outcome := DecisionEvent(row.id, accepted, verification), OutcomeEvent(row, accepted, verification);
    RebuildAppend(log, decision);
    RebuildAppend(log + [decision], outcome);
    var views := RowViews(rows);
    assert views[k] == RowView(rows[k]);
    assert k == |rows| - 1;
    assert ViewIndex(views, row.id) == k;
    assert RowViews(rows[k := row]) == views[k := RowView(row)];
  }

  // ---------- Every run ----------

  lemma {:induction false} NextPreserves(run: Run, op: Op)
    requires Inv(run) && AgentOp(op)
    ensures Inv(Next(run, op))
  {
    hide LogOk, StatusOk, RowsOk, Materialised;
    match op
    case DoClaimNext(owner, now, ttlMs) =>
      if Claimable(run, now) && run.status == Pending {
        TransitionPreserves(run, Running);
      }
    case DoSetStatus(lease, now, status) =>
      assert run.status != Failed by {
        NeverFailed(run);
      }
      if LeaseValid(run, lease, now) && run.status == Pending {
        TransitionPreserves(run, Running);
      }
    case DoRespond(lease, now, response, intents) => RespondPreserves(run, lease, now, response);
    case DoResult(lease, now, callId, content) => ResultPreserves(run, lease, now, callId, content);
    case DoPropose(lease, now, callId, state, id) =>
      if FreshId(run, id) {
        ProposePreserves(run, lease, now, callId, state, id);
      }
    case DoDecide(lease, now, checkpoint, accepted, verification) =>
      DecidePreserves(run, lease, now, checkpoint, accepted, verification);
    case DoComplete(lease, now) =>
      if Writable(run, lease, now) {
        TransitionPreserves(run.(owner := None, expires := None), Completed);
      }
    case _ =>
  }

  lemma {:induction false} NewRunInv(createdAt: int)
    ensures Inv(NewRun(createdAt))
  {
    assert RowViews([]) == [];
  }

  /** Every run of a database. */
  ghost predicate AllInv(view: map<Uuid, Run>) {
    forall id :: id in view ==> Inv(view[id])
  }

  /** Any interleaving of transactions by any number of contexts and workers, at
      any clock readings, with live or stale leases, keeps the invariant. */
  lemma {:induction false} InvariantHolds(createdAt: int, ops: seq<Op>)
    requires AgentOps(ops)
    ensures Inv(Exec(NewRun(createdAt), ops))
  {
    if ops == [] {
      NewRunInv(createdAt);
    } else {
      InvariantHolds(createdAt, ops[..|ops| - 1]);
      NextPreserves(Exec(NewRun(createdAt), ops[..|ops| - 1]), ops[|ops| - 1]);
    }
  }
}

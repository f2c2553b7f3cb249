/** The pending-call query over the whole log is a simple queue of open calls. */
module Queue {
  import opened Types
  import opened Keys
  import opened Runs
  import opened Invariant

  function WithoutCall(queue: seq<Event>, callId: string): seq<Event> {
    if queue == [] then []
    else
      var rest, last := WithoutCall(queue[..|queue| - 1], callId), queue[|queue| - 1];
      if last.payload.CallId() == Some(callId) then rest else rest + [last]
  }

  /** Calls join at the back; a result takes its call out. */
  function Open(log: seq<Event>): seq<Event> {
    if log == [] then []
    else
      var queue, e := Open(log[..|log| - 1]), log[|log| - 1];
      if e.kind.ToolCall? then queue + [e]
      else if e.kind.ToolResult? && e.payload.CallId().Some? then WithoutCall(queue, e.payload.CallId().value)
      else queue
  }

  lemma {:induction false} OpenAppend(log: seq<Event>, e: Event)
    ensures Open(log + [e]) ==
      if e.kind.ToolCall? then Open(log) + [e]
      else if e.kind.ToolResult? && e.payload.CallId().Some? then WithoutCall(Open(log), e.payload.CallId().value)
      else Open(log)
  {
    assert (log + [e])[..|log|] == log;
  }

  lemma {:induction false} WithoutAppend(queue: seq<Event>, e: Event, callId: string)
    ensures WithoutCall(queue + [e], callId) ==
      if e.payload.CallId() == Some(callId) then WithoutCall(queue, callId) else WithoutCall(queue, callId) + [e]
  {
    assert (queue + [e])[..|queue|] == queue;
  }

  // ---------- The query is the queue, for every log ----------

  lemma {:induction false} AmongAfterOther(log: seq<Event>, e: Event, n: nat)
    requires n <= |log| && !(e.kind.ToolResult? && e.payload.CallId().Some?)
    ensures PendingAmong(log + [e], n) == PendingAmong(log, n)
  {
    if n > 0 {
      AmongAfterOther(log, e, n - 1);
      var longer := log + [e];
      assert IsPending(log, n - 1) ==> IsPending(longer, n - 1);
      assert IsPending(longer, n - 1) ==> IsPending(log, n - 1) by {
        assert forall j :: 0 <= j < |log| ==> log[j] == longer[j];
      }
    }
  }

  lemma {:induction false} AmongAfterResult(log: seq<Event>, e: Event, n: nat)
    requires n <= |log| && e.kind.ToolResult? && e.payload.CallId().Some?
    ensures PendingAmong(log + [e], n) == WithoutCall(PendingAmong(log, n), e.payload.CallId().value)
  {
    if n > 0 {
      AmongAfterResult(log, e, n - 1);
      var longer, call := log + [e], log[n - 1];
      assert longer[|log|] == e && forall j :: 0 <= j < |log| ==> log[j] == longer[j];
      assert IsPending(longer, n - 1) <==> IsPending(log, n - 1) && !SameCall(e.payload, call.payload);
      WithoutAppend(PendingAmong(log, n - 1), call, e.payload.CallId().value);
    }
  }

  lemma {:induction false} PendingIsOpen(log: seq<Event>)
    ensures PendingCalls(log) == Open(log)
  {
    if log != [] {
      var init, e := log[..|log| - 1], log[|log| - 1];
      PendingIsOpen(init);
      OpenAppend(init, e);
      assert log == init + [e];
      var among := PendingAmong(log, |init|);
      if e.kind.ToolResult? && e.payload.CallId().Some? {
        AmongAfterResult(init, e, |init|);
        assert PendingCalls(log) == among;
      } else {
        AmongAfterOther(init, e, |init|);
        assert PendingCalls(log) == if e.kind.ToolCall? then among + [e] else among;
      }
    }
  }

  // ---------- A result removes exactly one call ----------

  lemma {:induction false} OpenMembers(log: seq<Event>)
    ensures forall e :: e in Open(log) ==> e in log && e.kind.ToolCall?
  {
    if log != [] {
      var init, e := log[..|log| - 1], log[|log| - 1];
      OpenMembers(init);
      if e.kind.ToolResult? && e.payload.CallId().Some? {
        WithoutMembers(Open(init), e.payload.CallId().value);
      }
    }
  }

  lemma {:induction false} WithoutMembers(queue: seq<Event>, callId: string)
    ensures forall e :: e in WithoutCall(queue, callId) <==> e in queue && e.payload.CallId() != Some(callId)
  {
    if queue != [] {
      WithoutMembers(queue[..|queue| - 1], callId);
      assert queue == queue[..|queue| - 1] + [queue[|queue| - 1]];
    }
  }

  lemma {:induction false} WithoutAbsent(queue: seq<Event>, callId: string)
    requires forall k :: 0 <= k < |queue| ==> queue[k].payload.CallId() != Some(callId)
    ensures WithoutCall(queue, callId) == queue
  {
    if queue != [] {
      WithoutAbsent(queue[..|queue| - 1], callId);
    }
  }

  predicate Distinct(queue: seq<Event>) {
    forall k, l :: 0 <= k < l < |queue| ==> queue[k].payload.CallId() != queue[l].payload.CallId()
  }

  /** Exactly one call leaves, and the others keep their order. */
  predicate OneRemoved(before: seq<Event>, after: seq<Event>, callId: string) {
    exists k :: 0 <= k < |before| && before[k].payload.CallId() == Some(callId) && after == before[..k] + before[k + 1..]
  }

  lemma {:induction false} WithoutPresent(queue: seq<Event>, callId: string, k: nat)
    requires Distinct(queue) && k < |queue| && queue[k].payload.CallId() == Some(callId)
    ensures WithoutCall(queue, callId) == queue[..k] + queue[k + 1..]
  {
    var n := |queue| - 1;
    if k == n {
      WithoutAbsent(queue[..n], callId);
    } else {
      WithoutPresent(queue[..n], callId, k);
      assert queue[..n][..k] == queue[..k] && queue[..n][k + 1..] + [queue[n]] == queue[k + 1..];
    }
  }

  lemma {:induction false} LogOkInit(log: seq<Event>)
    requires LogOk(log) && log != []
    ensures LogOk(log[..|log| - 1])
  {
    var init := log[..|log| - 1];
    forall j | 0 <= j < |init| && init[j].kind.ToolResult?
      ensures init[j].payload.CallId().Some? && HasIntent(init, j, init[j].payload.CallId().value)
    {
      var i :| 0 <= i < j && log[i].kind.ToolCall? && log[i].payload.CallId() == log[j].payload.CallId();
      assert init[i] == log[i];
    }
  }

  lemma {:induction false} OpenDistinct(log: seq<Event>)
    requires LogOk(log)
    ensures Distinct(Open(log))
  {
    if log != [] {
      var init, e := log[..|log| - 1], log[|log| - 1];
      LogOkInit(log);
      OpenDistinct(init);
      OpenMembers(init);
      if e.kind.ToolCall? {
        forall k | 0 <= k < |Open(init)|
          ensures Open(init)[k].payload.CallId() != e.payload.CallId()
        {
          assert Open(init)[k] in init;
          var i :| 0 <= i < |init| && init[i] == Open(init)[k];
          assert log[i].key != log[|log| - 1].key && EventShape(log[i]) && EventShape(e);
        }
      } else if e.kind.ToolResult? && e.payload.CallId().Some? {
        WithoutDistinct(Open(init), e.payload.CallId().value);
      }
    }
  }

  lemma {:induction false} WithoutDistinct(queue: seq<Event>, callId: string)
    requires Distinct(queue)
    ensures Distinct(WithoutCall(queue, callId))
  {
    if k :| 0 <= k < |queue| && queue[k].payload.CallId() == Some(callId) {
      WithoutPresent(queue, callId, k);
    } else {
      WithoutAbsent(queue, callId);
    }
  }

  lemma {:induction false} PendingIsAmong(log: seq<Event>, i: nat, n: nat)
    requires i < n <= |log| && IsPending(log, i)
    ensures log[i] in PendingAmong(log, n)
  {
    if i < n - 1 {
      PendingIsAmong(log, i, n - 1);
    }
  }

  /** Appending the first result of a recorded call takes that call, and only
      that call, out of the queue. */
  lemma {:induction false} ResultRemovesOne(log: seq<Event>, e: Event, i: nat)
    requires LogOk(log) && e.kind.ToolResult? && e.payload.Outcome?
    requires i < |log| && IsPending(log, i) && log[i].payload.CallId() == Some(e.payload.callId)
    ensures OneRemoved(Open(log), Open(log + [e]), e.payload.callId)
  {
    PendingIsAmong(log, i, |log|);
    PendingIsOpen(log);
    OpenDistinct(log);
    OpenAppend(log, e);
    var k :| 0 <= k < |Open(log)| && Open(log)[k] == log[i];
    WithoutPresent(Open(log), e.payload.callId, k);
  }

  lemma {:induction false} OpenAppendCalls(log: seq<Event>, calls: seq<Event>)
    requires forall i :: 0 <= i < |calls| ==> calls[i].kind.ToolCall?
    ensures Open(log + calls) == Open(log) + calls
  {
    hide Open;
    if calls == [] {
      assert Open(log + calls) == Open(log) + calls by {
        assert log + calls == log && Open(log) + calls == Open(log);
      }
    } else {
      var init, e := calls[..|calls| - 1], calls[|calls| - 1];
      OpenAppendCalls(log, init);
      OpenAppend(log + init, e);
      assert log + calls == log + init + [e] && init + [e] == calls;
      assert Open(log) + init + [e] == Open(log) + calls;
    }
  }

  // ---------- What each transaction does to the queue ----------

  /** The queue after a transaction that changed the log. */
  predicate QueueMoves(before: Run, op: Op, after: Run) {
    match op
    case DoRespond(_, _, _, intents) => Open(after.log) == Open(before.log) + IntentEvents(intents)
    case DoResult(_, _, callId, _) => OneRemoved(Open(before.log), Open(after.log), callId)
    case DoDecide(_, _, id, _, _) =>
      exists k :: 0 <= k < |before.checkpoints| && before.checkpoints[k].id == id
        && OneRemoved(Open(before.log), Open(after.log), before.checkpoints[k].toolCallId)
    case _ => Open(after.log) == Open(before.log)
  }

  lemma {:induction false} ResponseJoins(log: seq<Event>, response: Payload, intents: seq<(Payload, string)>)
    ensures Open(log + Batch(response, intents)) == Open(log) + IntentEvents(intents)
  {
    hide Open;
    var first := Event(LlmCall, response, None);
    OpenAppend(log, first);
    OpenAppendCalls(log + [first], IntentEvents(intents));
    assert log + [first] + IntentEvents(intents) == log + Batch(response, intents);
  }

  lemma {:induction false} ResponseStep(run: Run, lease: Lease, now: int, response: Payload, intents: seq<(Payload, string)>)
    ensures var op := DoRespond(lease, now, response, intents);
      Next(run, op).log == run.log || QueueMoves(run, op, Next(run, op))
  {
    hide Open, InsertAll, Batch;
    if AppendResponse(run, lease, now, response, intents).Commit? {
      InsertAllAppends(run.log, Batch(response, intents));
      ResponseJoins(run.log, response, intents);
    }
  }

  lemma {:induction false} ResultStep(run: Run, lease: Lease, now: int, callId: string, content: Value)
    requires Inv(run)
    ensures var op := DoResult(lease, now, callId, content);
      Next(run, op).log == run.log || QueueMoves(run, op, Next(run, op))
  {
    hide Inv, Open, OneRemoved, KeyTaken;
    if Next(run, DoResult(lease, now, callId, content)).log != run.log {
      ResultTakesCall(run, callId, content);
    }
  }

  lemma {:induction false} DecisionStep(run: Run, lease: Lease, now: int, id: int, accepted: bool, verification: Value)
    requires Inv(run)
    ensures var op := DoDecide(lease, now, id, accepted, verification);
      Next(run, op).log == run.log || QueueMoves(run, op, Next(run, op))
  {
    hide Inv, Open, OneRemoved, InsertAll;
    if Decide(run, lease, now, id, accepted, verification).Commit? {
      DecisionTakesCall(run, CandidateIndex(run.checkpoints, id), accepted, verification);
    }
  }

  /** Transactions that append neither a call nor a result, if anything. */
  lemma {:induction false} OtherStep(run: Run, op: Op)
    requires AgentOp(op) && !op.DoRespond? && !op.DoResult? && !op.DoDecide?
    ensures Open(Next(run, op).log) == Open(run.log)
  {
    hide Open, Proposable, KeyTaken;
    var after := Next(run, op);
    if after.log != run.log {
      match op
      case DoClaimNext(_, _, _) => OpenAppend(run.log, START);
      case DoSetStatus(_, _, _) => OpenAppend(run.log, TransitionEvent(run.status, Running));
      case DoPropose(lease, now, callId, state, id) =>
        OpenAppend(run.log, ProposedEvent(Propose(run, lease, now, callId, state, id).value));
      case DoComplete(_, _) => OpenAppend(run.log, FINISH);
    }
  }

  /** record_response appends its calls, record_tool_result and the decision of
      a checkpoint each remove exactly one, and nothing else moves the queue. */
  lemma {:induction false} QueueStep(run: Run, op: Op)
    requires Inv(run) && AgentOp(op)
    ensures Next(run, op).log == run.log || QueueMoves(run, op, Next(run, op))
  {
    hide Inv, Open, OneRemoved, Next;
    match op
    case DoRespond(lease, now, response, intents) => ResponseStep(run, lease, now, response, intents);
    case DoResult(lease, now, callId, content) => ResultStep(run, lease, now, callId, content);
    case DoDecide(lease, now, id, accepted, verification) => DecisionStep(run, lease, now, id, accepted, verification);
    case _ => OtherStep(run, op);
  }

  lemma {:induction false} ResultTakesCall(run: Run, callId: string, content: Value)
    requires Inv(run)
    requires FirstOf(run.log, ToolCall, callId) < |run.log| && FirstOf(run.log, ToolResult, callId) == |run.log|
    ensures OneRemoved(Open(run.log), Open(run.log + [Event(ToolResult, Outcome(callId, content), Some(ResultKey(callId)))]), callId)
  {
    var i := FirstOf(run.log, ToolCall, callId);
    assert IsPending(run.log, i);
    ResultRemovesOne(run.log, Event(ToolResult, Outcome(callId, content), Some(ResultKey(callId))), i);
  }

  lemma {:induction false} DecisionTakesCall(run: Run, k: nat, accepted: bool, verification: Value)
    requires Inv(run) && k < |run.checkpoints| && run.checkpoints[k].status.Candidate?
    ensures var row := DecidedRow(run.checkpoints[k], |run.log|, accepted, verification);
      var decision, outcome := DecisionEvent(row.id, accepted, verification), OutcomeEvent(row, accepted, verification);
      && InsertAll(run.log, [decision, outcome]) == Ok(run.log + [decision] + [outcome])
      && OneRemoved(Open(run.log), Open(run.log + [decision] + [outcome]), row.toolCallId)
  {
    var row := DecidedRow(run.checkpoints[k], |run.log|, accepted, verification);
    var decision, outcome := DecisionEvent(row.id, accepted, verification), OutcomeEvent(row, accepted, verification);
    DecisionFits(run, k, accepted, verification);
    assert outcome == OutcomeEvent(run.checkpoints[k], accepted, verification);
    InsertTwo(run.log, decision, outcome);
    AppendLog(run.log, decision);
    OpenAppend(run.log, decision);
    assert RowOk(run.log, run.checkpoints[k]);
    StillPending(run.log, decision, row.toolCallId);
    var log := run.log + [decision];
    var i :| 0 <= i < |log| && log[i].kind.ToolCall? && log[i].payload.CallId() == Some(row.toolCallId)
      && log[i].payload.Name() == Some(CHECKPOINT_TOOL) && log[i].payload.ToolCount() == 1 && IsPending(log, i);
    ResultRemovesOne(log, outcome, i);
  }

  // ---------- What a response leaves to do ----------

  /** The call and the response_tool_count that pending_tool_calls() reads out of
      an intent. */
  function ReadCall(e: Event): Option<(Call, nat)> {
    match e.payload
    case Intent(id, name, args, _) => Some((Call(id, name, args), e.payload.ToolCount()))
    case _ => None
  }

  /** A recorded response round-trips: its calls stand at the end of the pending
      calls, in order, with their names, arguments and count. */
  lemma {:induction false} ResponseRoundTrip(run: Run, lease: Lease, now: int, response: Payload)
    requires Inv(run) && response.Response?
    requires AppendResponse(run, lease, now, response, IntentsFor(response.calls)).Commit?
    ensures var calls, after := response.calls, AppendResponse(run, lease, now, response, IntentsFor(response.calls)).run;
      var before, pending := PendingCalls(run.log), PendingCalls(after.log);
      && |pending| == |before| + |calls| && before <= pending
      && forall i :: 0 <= i < |calls| ==> ReadCall(pending[|before| + i]) == Some((calls[i], |calls|))
  {
    hide Inv, Open, PendingCalls;
    var calls, intents := response.calls, IntentsFor(response.calls);
    var first := Event(LlmCall, response, None);
    InsertAllAppends(run.log, Batch(response, intents));
    assert run.log + [first] + IntentEvents(intents) == run.log + Batch(response, intents);
    OpenAppend(run.log, first);
    OpenAppendCalls(run.log + [first], IntentEvents(intents));
    PendingIsOpen(run.log);
    PendingIsOpen(run.log + [first] + IntentEvents(intents));
    assert forall i :: 0 <= i < |calls| ==> ReadCall(IntentEvents(intents)[i]) == Some((calls[i], |calls|));
  }

  lemma {:induction false} IntentAfterBatch(log: seq<Event>, response: Payload, i: nat)
    requires response.Response? && i < |response.calls|
    ensures var longer, at := log + Batch(response, IntentsFor(response.calls)), |log| + 1 + i;
      var call := response.calls[i];
      at < |longer| && longer[at].kind.ToolCall? && IsPending(longer, at)
      && longer[at].payload == Intent(call.id, call.name, call.args, Some(|response.calls|))
  {
    var batch := Batch(response, IntentsFor(response.calls));
    var longer, at := log + batch, |log| + 1 + i;
    forall j | |log| < j < |longer|
      ensures longer[j] == batch[j - |log|] && longer[j].kind.ToolCall?
    {
    }
  }

  lemma {:induction false} StandaloneMeansAlone(log: seq<Event>, at: nat)
    requires LogOk(log) && at < |log| && IsPending(log, at)
    requires log[at].payload.Intent? && log[at].payload.name == CHECKPOINT_TOOL
    ensures PendingStandalone(log, log[at].payload.callId) <==> log[at].payload.ToolCount() == 1
  {
    hide LogOk, IsPending;
    var callId := log[at].payload.callId;
    assert log[at].kind.ToolCall? by {
      PendingIsCall(log, at);
    }
    if PendingStandalone(log, callId) {
      var k :| 0 <= k < |log| && log[k].kind.ToolCall? && log[k].payload.CallId() == Some(callId)
        && log[k].payload.Name() == Some(CHECKPOINT_TOOL) && log[k].payload.ToolCount() == 1 && IsPending(log, k);
      IntentUnique(log, at, k);
    }
  }

  lemma {:induction false} PendingIsCall(log: seq<Event>, i: nat)
    requires i < |log| && IsPending(log, i)
    ensures log[i].kind.ToolCall?
  {
  }

  lemma {:induction false} InvLog(run: Run)
    requires Inv(run)
    ensures LogOk(run.log)
  {
  }

  /** A response makes its checkpoint call proposable exactly when that is its
      only call. */
  lemma {:induction false} ProposableIffAlone(run: Run, lease: Lease, now: int, response: Payload, i: nat)
    requires Inv(run) && response.Response? && i < |response.calls| && response.calls[i].name == CHECKPOINT_TOOL
    requires AppendResponse(run, lease, now, response, IntentsFor(response.calls)).Commit?
    ensures var after := AppendResponse(run, lease, now, response, IntentsFor(response.calls)).run;
      PendingStandalone(after.log, response.calls[i].id) <==> |response.calls| == 1
  {
    hide Inv, LogOk, PendingStandalone, IsPending, Batch;
    var after := AppendResponse(run, lease, now, response, IntentsFor(response.calls)).run;
    InsertAllAppends(run.log, Batch(response, IntentsFor(response.calls)));
    RespondPreserves(run, lease, now, response);
    InvLog(after);
    IntentAfterBatch(run.log, response, i);
    StandaloneMeansAlone(after.log, |run.log| + 1 + i);
  }

  predicate AtMostOne(log: seq<Event>, kind: EventType, callId: string) {
    forall i, j :: 0 <= i < j < |log| && log[i].kind == kind && log[j].kind == kind ==>
      log[i].payload.CallId() != Some(callId) || log[j].payload.CallId() != Some(callId)
  }

  /** One intent and at most one result per call id, the result always later:
      so the test existing.seq <= intent_seq in record_tool_result never holds. */
  lemma {:induction false} CallLifecycle(run: Run, callId: string)
    requires Inv(run)
    ensures AtMostOne(run.log, ToolCall, callId) && AtMostOne(run.log, ToolResult, callId)
    ensures FirstOf(run.log, ToolResult, callId) < |run.log| ==>
      FirstOf(run.log, ToolCall, callId) < FirstOf(run.log, ToolResult, callId)
  {
    hide RowsOk, Materialised, StatusOk;
    forall i, j | 0 <= i < j < |run.log| && run.log[i].kind.ToolCall? && run.log[j].kind.ToolCall?
      ensures run.log[i].payload.CallId() != run.log[j].payload.CallId()
    {
      if run.log[i].payload.CallId() == run.log[j].payload.CallId() {
        IntentUnique(run.log, i, j);
      }
    }
    var r := FirstOf(run.log, ToolResult, callId);
    if r < |run.log| {
      assert HasIntent(run.log, r, callId);
    }
  }
}

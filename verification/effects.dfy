/** When each transaction commits and what it then has written, field by field
    and in the terms of the tables. */
module Effects {
  import opened Types
  import opened Keys
  import opened Runs
  import opened Invariant
  import opened History

  // ---------- Leases ----------

  predicate Fits(ms: int) {
    -0x8000_0000_0000_0000 <= ms <= 0x7fff_ffff_ffff_ffff
  }

  /** The row and the lease of a claim say the same, and nothing else changed. */
  predicate ClaimedFor(before: Run, after: Run, lease: Lease, runId: Uuid, owner: Uuid, expires: int) {
    && lease == Lease(runId, owner, before.epoch + 1, expires)
    && after.owner == Some(owner) && after.epoch == before.epoch + 1 && after.expires == Some(expires)
    && after.createdAt == before.createdAt && after.checkpoints == before.checkpoints
  }

  lemma {:induction false} ClaimCommitsIff(run: Run, runId: Uuid, owner: Uuid, now: int, ttlMs: int, recover: bool)
    ensures Claim(run, runId, owner, now, ttlMs, recover).Commit? <==>
      && (run.status == Pending || run.status == Running) && Fits(now + ttlMs)
      && (recover || run.owner == None)
    ensures Claim(run, runId, owner, now, ttlMs, recover).Commit? ==>
      var out := Claim(run, runId, owner, now, ttlMs, recover);
      && ClaimedFor(run, out.run, out.value, runId, owner, now + ttlMs)
      && out.run.status == run.status && out.run.log == run.log
  {
  }

  lemma {:induction false} ClaimSelectedCommitsIff(run: Run, runId: Uuid, owner: Uuid, now: int, ttlMs: int)
    ensures ClaimSelected(run, runId, owner, now, ttlMs).Commit? <==> Fits(now + ttlMs)
    ensures ClaimSelected(run, runId, owner, now, ttlMs).Commit? ==>
      var out := ClaimSelected(run, runId, owner, now, ttlMs);
      && ClaimedFor(run, out.run, out.value, runId, owner, now + ttlMs)
      && out.run.status == Running
      && out.run.log == run.log +
           if run.status == Pending then [Event(StateTransition, Transition(Pending, Running), None)] else []
  {
    assert run.log + [] == run.log;
  }

  /** A worker may take exactly the open runs that have no owner or whose lease
      has run out. */
  lemma {:induction false} ClaimableIff(run: Run, now: int)
    requires LeaseOk(run)
    ensures Claimable(run, now) <==>
      (run.status == Pending || run.status == Running) && (run.owner == None || run.expires.value <= now)
  {
  }

  /** The lease that a claim hands out is good until it expires, and can be
      renewed until then. */
  lemma {:induction false} GrantedLeaseRenews(run: Run, lease: Lease, now: int, ttlMs: int)
    requires GrantedTo(run, lease) && (run.status == Pending || run.status == Running)
    ensures LeaseValid(run, lease, now) <==> now < lease.expires
    ensures Renew(run, lease, now, ttlMs).Commit? <==> now < lease.expires && Fits(now + ttlMs)
    ensures Renew(run, lease, now, ttlMs).Commit? ==>
      var out := Renew(run, lease, now, ttlMs);
      && out.run == run.(expires := Some(now + ttlMs)) && out.value == lease.(expires := now + ttlMs)
      && GrantedTo(out.run, out.value)
  {
  }

  lemma {:induction false} RenewCommitsIff(run: Run, lease: Lease, now: int, ttlMs: int)
    ensures Renew(run, lease, now, ttlMs).Commit? <==>
      && run.owner == Some(lease.owner) && run.epoch == lease.epoch && run.expires.Some? && now < run.expires.value
      && (run.status == Pending || run.status == Running) && Fits(now + ttlMs)
    ensures Renew(run, lease, now, ttlMs).Commit? ==>
      Renew(run, lease, now, ttlMs) == Commit(run.(expires := Some(now + ttlMs)), lease.(expires := now + ttlMs))
  {
  }

  /** close() and then open(): a released run, which its holder may release even
      after the lease has expired, can be claimed again without force. */
  lemma {:induction false} ReleasedRunReopens(run: Run, lease: Lease, runId: Uuid, owner: Uuid, now: int, ttlMs: int)
    requires run.status == Running && Fits(now + ttlMs)
    ensures Release(run, lease).Commit? <==> run.owner == Some(lease.owner) && run.epoch == lease.epoch
    ensures Release(run, lease).Commit? ==>
      var released := Release(run, lease).run;
      && released == run.(owner := None, expires := None)
      && Claim(released, runId, owner, now, ttlMs, false).Commit?
      && GrantedTo(Claim(released, runId, owner, now, ttlMs, false).run, Claim(released, runId, owner, now, ttlMs, false).value)
  {
  }

  // ---------- Status and raw events ----------

  predicate LiveLease(run: Run, lease: Lease, now: int) {
    run.owner == Some(lease.owner) && run.epoch == lease.epoch && run.expires.Some? && now < run.expires.value
  }

  lemma {:induction false} StatusCommitsIff(run: Run, lease: Lease, now: int, status: Status)
    ensures SetStatus(run, lease, now, status).Commit? <==> LiveLease(run, lease, now)
    ensures SetStatus(run, lease, now, status).Commit? ==>
      SetStatus(run, lease, now, status).run ==
        if run.status == status then run
        else run.(status := status, log := run.log + [Event(StateTransition, Transition(run.status, status), None)])
  {
  }

  lemma {:induction false} CompleteCommitsIff(run: Run, lease: Lease, now: int)
    ensures Complete(run, lease, now).Commit? <==> LiveLease(run, lease, now) && run.status == Running
    ensures Complete(run, lease, now).Commit? ==>
      Complete(run, lease, now).run == run.(status := Completed, owner := None, expires := None,
        log := run.log + [Event(StateTransition, Transition(Running, Completed), None)])
  {
  }

  predicate HasKey(log: seq<Event>, key: Key) {
    exists i :: 0 <= i < |log| && log[i].key == Some(key)
  }

  lemma {:induction false} AppendCommitsIff(run: Run, lease: Lease, now: int, event: Event)
    ensures AppendEvent(run, lease, now, event).Commit? <==>
      && LiveLease(run, lease, now) && run.status == Running
      && (event.key.Some? ==> !HasKey(run.log, event.key.value))
    ensures AppendEvent(run, lease, now, event).Commit? ==>
      AppendEvent(run, lease, now, event) == Commit(run.(log := run.log + [event]), event)
  {
  }

  // ---------- Responses and results ----------

  /** A response is one llm_call event with all of it, and then one tool_call
      event for each call, in order. */
  lemma {:induction false} ResponseEffect(run: Run, lease: Lease, now: int, response: Payload)
    requires response.Response?
    ensures AppendResponse(run, lease, now, response, IntentsFor(response.calls)).Commit? ==>
      var calls, after := response.calls, AppendResponse(run, lease, now, response, IntentsFor(response.calls)).run;
      && after == run.(log := after.log)
      && |after.log| == |run.log| + 1 + |calls| && run.log <= after.log
      && after.log[|run.log|] == Event(LlmCall, response, None)
      && forall i :: 0 <= i < |calls| ==>
           after.log[|run.log| + 1 + i] ==
             Event(ToolCall, Intent(calls[i].id, calls[i].name, calls[i].args, Some(|calls|)), Some(IntentKey(calls[i].id)))
  {
    var calls, out := response.calls, AppendResponse(run, lease, now, response, IntentsFor(response.calls));
    if out.Commit? {
      InsertAllAppends(run.log, Batch(response, IntentsFor(calls)));
    }
  }

  /** The first result of a call is appended with its content. */
  lemma {:induction false} ResultEffect(run: Run, lease: Lease, now: int, callId: string, content: Value)
    ensures RecordResult(run, lease, now, callId, content).Commit? ==>
      var out := RecordResult(run, lease, now, callId, content);
      && out.value.payload == Outcome(callId, content)
      && (HasResult(run.log, callId) ==> out.run == run && out.value in run.log && out.value.kind.ToolResult?)
      && (!HasResult(run.log, callId) ==>
            && out.value == Event(ToolResult, Outcome(callId, content), Some(ResultKey(callId)))
            && out.run == run.(log := run.log + [out.value]))
  {
    var existing := FirstOf(run.log, ToolResult, callId);
    assert HasResult(run.log, callId) <==> existing < |run.log|;
    hide KeyTaken;
  }

  // ---------- Checkpoints ----------

  /** The new row has the proposed state and the next round, and is based on the
      last event before its own. */
  lemma {:induction false} ProposalEffect(run: Run, lease: Lease, now: int, callId: string, state: CheckpointState, id: int)
    requires Inv(run)
    ensures Propose(run, lease, now, callId, state, id).Commit? ==>
      var out := Propose(run, lease, now, callId, state, id);
      && out.value == Checkpoint(id, |run.checkpoints| + 1, callId, |run.log| - 1, None, Candidate, state, None)
      && out.run == run.(
           log := run.log + [Event(CheckpointProposed, Proposal(id, |run.checkpoints| + 1, state), Some(ProposedKey(id)))],
           checkpoints := run.checkpoints + [out.value])
  {
    hide Inv, PendingStandalone, KeyTaken, ViolatesUnique, NextRound;
    if Propose(run, lease, now, callId, state, id).Commit? {
      ProposeIsUnique(run, callId);
    }
  }

  /** The row as decided. */
  predicate DecidedAs(before: Checkpoint, after: Checkpoint, n: int, accepted: bool, verification: Value) {
    after == Checkpoint(before.id, before.round, before.toolCallId, before.basedOn, Some(n),
                        if accepted then Accepted else Rejected, before.state, Some(verification))
  }

  /** The two events a decision appends, at n and n + 1. */
  predicate DecisionLogged(log: seq<Event>, n: nat, row: Checkpoint, accepted: bool, verification: Value) {
    && |log| == n + 2
    && (log[n].kind.CheckpointAccepted? <==> accepted) && (log[n].kind.CheckpointRejected? <==> !accepted)
    && log[n].payload == Decision(row.id, verification)
    && log[n + 1].kind.ToolResult?
    && log[n + 1].payload == Outcome(row.toolCallId, DecisionDocument(accepted, verification))
  }

  /** What a decision tells the model: the candidate's own call gets a result that
      says how it was decided and on what grounds, right after the decision. */
  lemma {:induction false} DecisionEffect(run: Run, lease: Lease, now: int, id: int, accepted: bool, verification: Value)
    requires Inv(run)
    ensures Decide(run, lease, now, id, accepted, verification).Commit? ==>
      var out, last := Decide(run, lease, now, id, accepted, verification), |run.checkpoints| - 1;
      && last >= 0 && run.checkpoints[last].status.Candidate? && run.checkpoints[last].id == id
      && DecidedAs(run.checkpoints[last], out.value, |run.log|, accepted, verification)
      && out.run == run.(log := out.run.log, checkpoints := run.checkpoints[last := out.value])
      && run.log <= out.run.log && DecisionLogged(out.run.log, |run.log|, out.value, accepted, verification)
  {
    hide Inv, InsertAll;
    var k := CandidateIndex(run.checkpoints, id);
    if Decide(run, lease, now, id, accepted, verification).Commit? {
      var row := DecidedRow(run.checkpoints[k], |run.log|, accepted, verification);
      InsertAllAppends(run.log, [DecisionEvent(id, accepted, verification), OutcomeEvent(row, accepted, verification)]);
      CandidatePending(run, k);
    }
  }

  // ---------- Reads under a lease ----------

  lemma {:induction false} CandidateReadIff(run: Run, lease: Lease, now: int, id: int)
    ensures GetCandidate(run, lease, now, id).Ok? <==>
      LiveLease(run, lease, now) && run.status == Running && OpenCandidate(run.checkpoints, id)
    ensures GetCandidate(run, lease, now, id).Ok? ==>
      var row := GetCandidate(run, lease, now, id).value;
      row in run.checkpoints && row.id == id && row.status.Candidate?
  {
    var k := CandidateIndex(run.checkpoints, id);
    if k < |run.checkpoints| {
      assert run.checkpoints[k].id == id;
    }
  }

  lemma {:induction false} PendingReadIff(run: Run, lease: Lease, now: int)
    ensures GetPending(run, lease, now).Ok? <==> LiveLease(run, lease, now) && run.status == Running
    ensures GetPending(run, lease, now).Ok? ==>
      match GetPending(run, lease, now).value
      case Some(row) => row in run.checkpoints && row.status.Candidate?
      case None => !HasCandidate(run.checkpoints)
  {
  }

  /** A tool call without a later result of its id. */
  predicate Unanswered(log: seq<Event>, i: nat)
    requires i < |log|
  {
    log[i].kind.ToolCall?
    && forall j :: i < j < |log| && log[j].kind.ToolResult? && log[j].payload.CallId().Some? ==>
         log[j].payload.CallId() != log[i].payload.CallId()
  }

  lemma {:induction false} UnansweredAmong(log: seq<Event>, i: nat, n: nat)
    requires i < n <= |log| && Unanswered(log, i)
    ensures log[i] in PendingAmong(log, n)
  {
    if i < n - 1 {
      UnansweredAmong(log, i, n - 1);
    } else {
      assert IsPending(log, i);
    }
  }

  lemma {:induction false} AmongUnanswered(log: seq<Event>, n: nat, e: Event)
    requires n <= |log| && e in PendingAmong(log, n)
    ensures exists i :: 0 <= i < n && log[i] == e && Unanswered(log, i)
  {
    if e in PendingAmong(log, n - 1) {
      AmongUnanswered(log, n - 1, e);
    } else {
      assert IsPending(log, n - 1) && log[n - 1] == e;
      assert Unanswered(log, n - 1);
    }
  }

  predicate UnansweredCall(log: seq<Event>, e: Event) {
    exists i :: 0 <= i < |log| && log[i] == e && Unanswered(log, i)
  }

  /** The read answers exactly the calls without a result. */
  lemma {:induction false} CallsReadIff(run: Run, lease: Lease, now: int, e: Event)
    ensures FindPending(run, lease, now).Ok? <==> LiveLease(run, lease, now) && run.status == Running
    ensures FindPending(run, lease, now).Ok? ==>
      (e in FindPending(run, lease, now).value <==> UnansweredCall(run.log, e))
  {
    if e in PendingCalls(run.log) {
      AmongUnanswered(run.log, |run.log|, e);
    }
    if i :| 0 <= i < |run.log| && run.log[i] == e && Unanswered(run.log, i) {
      UnansweredAmong(run.log, i, |run.log|);
    }
  }
}

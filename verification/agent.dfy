/** AgentContext of src/agent.rs as its owner uses it: a lease, a heartbeat that
    may have failed, and methods that renew the lease before each transaction.
    Module Contexts has the same steps interleaved with other contexts. */
module Agent {
  import opened Types
  import opened Clock
  import opened Runs
  import opened Store
  import opened Invariant
  import opened History
  import Effects

  /** A piece of work under the gate: refused after a heartbeat failure or when
      the renewal fails, else one transaction with the renewed lease. */
  function UnderLease<T>(run: Run, lease: Lease, failed: bool, renewedAt: int, ttlMs: int,
                         tx: (Run, Lease) -> Outcome<T>): (Run, Lease, Result<T>)
  {
    if failed then (run, lease, Err(InvalidState))
    else
      match Renew(run, lease, renewedAt, ttlMs)
      case Abort(error) => (run, lease, Err(error))
      case Commit(live, renewed) => (tx(live, renewed).After(live), renewed, tx(live, renewed).Reply())
  }

  /** The work changed the context's own run as UnderLease says, and no other. */
  ghost predicate Worked<T>(before: map<Uuid, Run>, after: map<Uuid, Run>, lease: Lease, renewed: Lease, failed: bool,
                            renewedAt: int, ttl: Duration, r: Result<T>, tx: (Run, Lease) -> Outcome<T>)
  {
    if lease.runId !in before || DurationToMillis(ttl).Err? then
      after == before && r.Err?
    else
      var w := UnderLease(before[lease.runId], lease, failed, renewedAt, DurationToMillis(ttl).value, tx);
      after == before[lease.runId := w.0] && renewed == w.1 && r == w.2
  }

  /** A transaction that reads. */
  function Query<T>(run: Run, r: Result<T>): Outcome<T> {
    match r
    case Ok(value) => Commit(run, value)
    case Err(error) => Abort(error)
  }

  predicate HeldBy(run: Run, lease: Lease) {
    run.owner == Some(lease.owner) && run.epoch == lease.epoch
  }

  /** The lease is given up if its run still has it, and nothing else changes. */
  function Released(view: map<Uuid, Run>, lease: Lease): map<Uuid, Run> {
    if lease.runId in view && HeldBy(view[lease.runId], lease) then
      view[lease.runId := view[lease.runId].(owner := None, expires := None)]
    else view
  }

  /** The run as the transaction of a method finds it: its lease renewed. */
  function Renewed(run: Run, lease: Lease, renewedAt: int, ttl: Duration): Run {
    if DurationToMillis(ttl).Ok? then Renew(run, lease, renewedAt, DurationToMillis(ttl).value).After(run) else run
  }

  /** A method of AgentContext that issues one of the agent operations under its
      renewed lease keeps the invariant of every run in the database. */
  lemma {:induction false} WorkedKeepsInv<T>(before: map<Uuid, Run>, after: map<Uuid, Run>, lease: Lease, renewed: Lease,
                                             failed: bool, renewedAt: int, ttl: Duration, r: Result<T>,
                                             tx: (Run, Lease) -> Outcome<T>, op: Op)
    requires AllInv(before) && AgentOp(op)
    requires Worked(before, after, lease, renewed, failed, renewedAt, ttl, r, tx)
    requires lease.runId in before ==>
      var live := Renewed(before[lease.runId], lease, renewedAt, ttl);
      tx(live, renewed).After(live) == Next(live, op)
    ensures AllInv(after)
  {
    hide Inv, Next, AgentOp, Renew;
    if lease.runId in before && DurationToMillis(ttl).Ok? && !failed {
      var run, ttlMs := before[lease.runId], DurationToMillis(ttl).value;
      if Renew(run, lease, renewedAt, ttlMs).Commit? {
        RenewKeepsInv(run, lease, renewedAt, ttlMs);
        NextPreserves(Renewed(run, lease, renewedAt, ttl), op);
      }
    }
  }

  /** A release after a renewal leaves what a release without it does. */
  lemma {:induction false} RenewThenRelease(run: Run, lease: Lease, now: int, ttlMs: int)
    requires Renew(run, lease, now, ttlMs).Commit?
    ensures var renewed := Renew(run, lease, now, ttlMs);
      Release(renewed.run, renewed.value).After(renewed.run) == Release(run, lease).After(run)
  {
  }

  lemma {:induction false} RenewKeepsInv(run: Run, lease: Lease, now: int, ttlMs: int)
    requires Inv(run) && Renew(run, lease, now, ttlMs).Commit?
    ensures Inv(Renew(run, lease, now, ttlMs).run)
  {
    hide Inv;
    NextPreserves(run, DoRenew(lease, now, ttlMs));
  }

  lemma {:induction false} PerformedKeepsInv<T>(before: map<Uuid, Run>, after: map<Uuid, Run>, runId: Uuid, r: Result<T>,
                                                missing: Error, tx: Run -> Outcome<T>, op: Op)
    requires AllInv(before) && AgentOp(op)
    requires Performed(before, after, runId, r, missing, tx)
    requires runId in before ==> tx(before[runId]).After(before[runId]) == Next(before[runId], op)
    ensures AllInv(after)
  {
    hide Inv, Next, AgentOp;
    if runId in before {
      NextPreserves(before[runId], op);
    }
  }

  /** Claiming and starting keeps the invariant, whichever of the two fails. */
  lemma {:induction false} StartKeepsInv(run: Run, runId: Uuid, owner: Uuid, claimedAt: int, ttlMs: int, recover: bool, startedAt: int)
    requires Inv(run) && Claim(run, runId, owner, claimedAt, ttlMs, recover).Commit?
    ensures var claimed, lease := Claim(run, runId, owner, claimedAt, ttlMs, recover).run,
        Claim(run, runId, owner, claimedAt, ttlMs, recover).value;
      Inv(SetStatus(claimed, lease, startedAt, Running).After(claimed)) && Inv(claimed.(owner := None, expires := None))
  {
    hide Inv;
    var claimed, lease := Claim(run, runId, owner, claimedAt, ttlMs, recover).run,
      Claim(run, runId, owner, claimedAt, ttlMs, recover).value;
    NextPreserves(run, DoClaim(owner, claimedAt, ttlMs, recover));
    NextPreserves(claimed, DoSetStatus(lease, startedAt, Running));
    NextPreserves(claimed, DoRelease(lease));
  }

  /** prepare_lease_operation goes through. */
  predicate Renewable(view: map<Uuid, Run>, lease: Lease, failed: bool, now: int, ttl: Duration) {
    && !failed && lease.runId in view && DurationToMillis(ttl).Ok?
    && var run := view[lease.runId];
       && run.owner == Some(lease.owner) && run.epoch == lease.epoch
       && run.expires.Some? && now < run.expires.value
       && (run.status == Pending || run.status == Running)
       && Effects.Fits(now + DurationToMillis(ttl).value)
  }

  /** And so does the check of the transaction after it, at a second reading: the
      run is running and the renewed lease is still good. */
  predicate GateOpen(view: map<Uuid, Run>, lease: Lease, failed: bool, renewedAt: int, at: int, ttl: Duration) {
    && Renewable(view, lease, failed, renewedAt, ttl)
    && view[lease.runId].status == Running
    && at < renewedAt + DurationToMillis(ttl).value
  }

  predicate NewIds(log: seq<Event>, calls: seq<Call>) {
    forall i :: 0 <= i < |calls| ==> !HasIntent(log, |log|, calls[i].id)
  }

  /** The id is that of a recorded call other than a checkpoint, which has no
      result yet, or this one. */
  predicate MayRecord(log: seq<Event>, callId: string, content: Value) {
    HasToolIntent(log, callId) && (HasResult(log, callId) ==> HasResultWith(log, callId, content))
  }

  class AgentContext {
    const db: Database
    const ttl: Duration
    var lease: Lease
    var failed: bool

    constructor FromLease(db: Database, lease: Lease, ttl: Duration)
      ensures this.db == db && this.lease == lease && this.ttl == ttl && !failed
    {
      this.db, this.lease, this.ttl, this.failed := db, lease, ttl, false;
    }

    /** open() and force_recover(): claims the run and starts it. A context is
        returned only for a started run; if starting fails, the claim is given
        back. */
    static method ClaimRun(db: Database, runId: Uuid, owner: Uuid, ttl: Duration, recover: bool, claimedAt: int, startedAt: int)
      returns (r: Result<AgentContext>)
      requires db.Valid()
      modifies db
      ensures db.Valid()
      ensures ttl < MIN_LEASE_TTL || DurationToMillis(ttl).Err? || runId !in old(db.View()) ==>
        r.Err? && db.View() == old(db.View())
      ensures ttl >= MIN_LEASE_TTL && DurationToMillis(ttl).Ok? && runId in old(db.View()) ==>
        var run := old(db.View())[runId];
        match Claim(run, runId, owner, claimedAt, DurationToMillis(ttl).value, recover)
        case Abort(error) => r == Err(error) && db.View() == old(db.View())
        case Commit(claimed, lease) =>
          (match SetStatus(claimed, lease, startedAt, Running)
           case Commit(started, _) =>
             r.Ok? && fresh(r.value) && r.value.db == db && r.value.lease == lease && r.value.ttl == ttl && !r.value.failed
             && db.View() == old(db.View())[runId := started]
           case Abort(error) =>
             r == Err(error) && db.View() == old(db.View())[runId := claimed.(owner := None, expires := None)])
      ensures r.Ok? <==>
        && ttl >= MIN_LEASE_TTL && DurationToMillis(ttl).Ok? && runId in old(db.View())
        && var run := old(db.View())[runId];
           && (run.status == Pending || run.status == Running) && (recover || run.owner == None)
           && Effects.Fits(claimedAt + DurationToMillis(ttl).value) && startedAt < claimedAt + DurationToMillis(ttl).value
      ensures r.Ok? ==>
        && runId in db.View() && db.View()[runId].status == Running
        && r.value.lease.runId == runId && r.value.lease.owner == owner && GrantedTo(db.View()[runId], r.value.lease)
      ensures AllInv(old(db.View())) ==> AllInv(db.View())
    {
      hide Inv, ViewOf, TablesOk;
      ghost var before := db.View();
      if runId in before && DurationToMillis(ttl).Ok? {
        Effects.ClaimCommitsIff(before[runId], runId, owner, claimedAt, DurationToMillis(ttl).value, recover);
      }
      if AllInv(before) && runId in before && DurationToMillis(ttl).Ok?
        && Claim(before[runId], runId, owner, claimedAt, DurationToMillis(ttl).value, recover).Commit? {
        StartKeepsInv(before[runId], runId, owner, claimedAt, DurationToMillis(ttl).value, recover, startedAt);
      }
      if ttl < MIN_LEASE_TTL {
        return Err(InvalidState);
      }
      var lease := db.ClaimRunLease(runId, owner, ttl, recover, claimedAt);
      if lease.Err? {
        return Err(lease.error);
      }
      var started := db.UpdateRunStatus(lease.value, Running, startedAt);
      if started.Err? {
        var _ := db.ReleaseRunLease(lease.value);
        return Err(started.error);
      }
      var ctx := new AgentContext.FromLease(db, lease.value, ttl);
      return Ok(ctx);
    }

    /** One turn of the heartbeat task. It keeps its own copy of the lease, and a
        failed renewal raises the flag, which nothing lowers. */
    method Beat(now: int) returns (r: Result<Lease>)
      requires db.Valid()
      modifies this`failed, db`runs
      ensures db.Valid()
      ensures failed == (old(failed) || r.Err?)
      ensures DurationToMillis(ttl).Err? ==> r.Err? && db.View() == old(db.View())
      ensures DurationToMillis(ttl).Ok? ==>
        var l, ttlMs := lease, DurationToMillis(ttl).value;
        Performed(old(db.View()), db.View(), l.runId, r, InvalidState, run => Renew(run, l, now, ttlMs))
      ensures AllInv(old(db.View())) ==> AllInv(db.View())
      ensures r.Ok? <==> Renewable(old(db.View()), lease, false, now, ttl)
      ensures r.Ok? ==>
        var run := old(db.View())[lease.runId];
        db.View() == old(db.View())[lease.runId := run.(expires := Some(now + DurationToMillis(ttl).value))]
      ensures r.Err? ==> db.View() == old(db.View())
    {
      hide Inv, ViewOf, TablesOk;
      if lease.runId in db.View() && DurationToMillis(ttl).Ok? {
        Effects.RenewCommitsIff(db.View()[lease.runId], lease, now, DurationToMillis(ttl).value);
      }
      r := db.RenewRunLease(lease, ttl, now);
      if r.Err? {
        failed := true;
      }
      if AllInv(old(db.View())) && DurationToMillis(ttl).Ok? {
        var l, ttlMs := lease, DurationToMillis(ttl).value;
        PerformedKeepsInv(old(db.View()), db.View(), lease.runId, r, InvalidState, run => Renew(run, l, now, ttlMs),
                          DoRenew(lease, now, ttlMs));
      }
    }

    /** prepare_lease_operation */
    method Prepare(now: int) returns (r: Result<()>)
      requires db.Valid()
      modifies this`lease, db`runs
      ensures db.Valid()
      ensures Worked(old(db.View()), db.View(), old(lease), lease, failed, now, ttl, r, (run, l) => Commit(run, ()))
      ensures r.Ok? <==> Renewable(old(db.View()), old(lease), failed, now, ttl)
      ensures r.Ok? ==>
        var run, expires := old(db.View())[old(lease).runId], now + DurationToMillis(ttl).value;
        && lease == old(lease).(expires := expires)
        && db.View() == old(db.View())[lease.runId := run.(expires := Some(expires))]
      ensures AllInv(old(db.View())) ==> AllInv(db.View())
      ensures r.Err? ==> lease == old(lease) && db.View() == old(db.View())
    {
      hide Inv, ViewOf, TablesOk;
      if lease.runId in db.View() && DurationToMillis(ttl).Ok? {
        Effects.RenewCommitsIff(db.View()[lease.runId], lease, now, DurationToMillis(ttl).value);
        if AllInv(db.View()) && Renew(db.View()[lease.runId], lease, now, DurationToMillis(ttl).value).Commit? {
          RenewKeepsInv(db.View()[lease.runId], lease, now, DurationToMillis(ttl).value);
        }
      }
      if failed {
        return Err(InvalidState);
      }
      var renewed := db.RenewRunLease(lease, ttl, now);
      if renewed.Err? {
        return Err(renewed.error);
      }
      lease := renewed.value;
      return Ok(());
    }

    method RecordResponse(content: Value, calls: seq<Call>, stopReason: string, renewedAt: int, at: int) returns (r: Result<()>)
      requires db.Valid()
      modifies this`lease, db
      ensures db.Valid()
      ensures Worked(old(db.View()), db.View(), old(lease), lease, failed, renewedAt, ttl, r,
        (run, l) => AppendResponse(run, l, at, Response(content, calls, stopReason), IntentsFor(calls)))
      ensures AllInv(old(db.View())) ==> AllInv(db.View())
      ensures AllInv(old(db.View())) ==>
        (r.Ok? <==>
          && GateOpen(old(db.View()), old(lease), failed, renewedAt, at, ttl)
          && DistinctIds(calls)
          && NewIds(old(db.View())[lease.runId].log, calls))
    {
      hide Inv, Renew, AppendResponse, ViewOf, TablesOk;
      var ready := Prepare(renewedAt);
      if ready.Err? {
        return Err(ready.error);
      }
      ghost var live := db.View()[lease.runId];
      if AllInv(old(db.View())) {
        RespondCommitsIff(live, lease, at, Response(content, calls, stopReason));
      }
      r := db.AppendLlmCallWithToolIntents(lease, Response(content, calls, stopReason), IntentsFor(calls), at);
      if AllInv(old(db.View())) {
        WorkedKeepsInv(old(db.View()), db.View(), old(lease), lease, failed, renewedAt, ttl, r,
          (run, l) => AppendResponse(run, l, at, Response(content, calls, stopReason), IntentsFor(calls)),
          DoRespond(lease, at, Response(content, calls, stopReason), IntentsFor(calls)));
      }
    }

    method PendingToolCalls(renewedAt: int, at: int) returns (r: Result<seq<Event>>)
      requires db.Valid()
      modifies this`lease, db
      ensures db.Valid()
      ensures Worked(old(db.View()), db.View(), old(lease), lease, failed, renewedAt, ttl, r,
        (run, l) => Query(run, FindPending(run, l, at)))
      ensures r.Ok? <==> GateOpen(old(db.View()), old(lease), failed, renewedAt, at, ttl)
    {
      hide Inv, Renew, FindPending, ViewOf, TablesOk;
      var ready := Prepare(renewedAt);
      if ready.Err? {
        return Err(ready.error);
      }
      ghost var live := db.View()[lease.runId];
      Effects.CallsReadIff(live, lease, at, Invariant.START);
      r := db.FindPendingToolCalls(lease, at);
    }

    method RecordToolResult(callId: string, content: Value, renewedAt: int, at: int) returns (r: Result<Event>)
      requires db.Valid()
      modifies this`lease, db
      ensures db.Valid()
      ensures Worked(old(db.View()), db.View(), old(lease), lease, failed, renewedAt, ttl, r,
        (run, l) => RecordResult(run, l, at, callId, content))
      ensures AllInv(old(db.View())) ==> AllInv(db.View())
      ensures AllInv(old(db.View())) ==>
        (r.Ok? <==>
          && GateOpen(old(db.View()), old(lease), failed, renewedAt, at, ttl)
          && MayRecord(old(db.View())[lease.runId].log, callId, content))
    {
      hide Inv, Renew, RecordResult, ViewOf, TablesOk;
      var ready := Prepare(renewedAt);
      if ready.Err? {
        return Err(ready.error);
      }
      ghost var live := db.View()[lease.runId];
      if AllInv(old(db.View())) {
        ResultCommitsIff(live, lease, at, callId, content);
      }
      r := db.RecordToolResult(lease, callId, content, at);
      if AllInv(old(db.View())) {
        WorkedKeepsInv(old(db.View()), db.View(), old(lease), lease, failed, renewedAt, ttl, r,
          (run, l) => RecordResult(run, l, at, callId, content),
          DoResult(lease, at, callId, content));
      }
    }

    method PendingCheckpoint(renewedAt: int, at: int) returns (r: Result<Option<Checkpoint>>)
      requires db.Valid()
      modifies this`lease, db
      ensures db.Valid()
      ensures Worked(old(db.View()), db.View(), old(lease), lease, failed, renewedAt, ttl, r,
        (run, l) => Query(run, GetPending(run, l, at)))
      ensures r.Ok? <==> GateOpen(old(db.View()), old(lease), failed, renewedAt, at, ttl)
    {
      hide Inv, Renew, GetPending, ViewOf, TablesOk;
      var ready := Prepare(renewedAt);
      if ready.Err? {
        return Err(ready.error);
      }
      ghost var live := db.View()[lease.runId];
      Effects.PendingReadIff(live, lease, at);
      r := db.GetPendingCheckpoint(lease, at);
    }

    /** The proposing half of checkpoint(). */
    method ProposeState(callId: string, state: CheckpointState, renewedAt: int, at: int) returns (r: Result<Checkpoint>)
      requires db.Valid()
      modifies this`lease, db
      ensures db.Valid()
      ensures Worked(old(db.View()), db.View(), old(lease), lease, failed, renewedAt, ttl, r,
        (run, l) => Propose(run, l, at, callId, state, old(|db.checkpoints|) + 1))
      ensures AllInv(old(db.View())) ==> AllInv(db.View())
      ensures AllInv(old(db.View())) ==>
        (r.Ok? <==>
          && GateOpen(old(db.View()), old(lease), failed, renewedAt, at, ttl)
          && PendingStandalone(old(db.View())[lease.runId].log, callId)
          && !HasCandidate(old(db.View())[lease.runId].checkpoints))
    {
      hide Inv, Renew, Propose, ViewOf, TablesOk;
      var ready := Prepare(renewedAt);
      if ready.Err? {
        return Err(ready.error);
      }
      ghost var live := db.View()[lease.runId];
      if AllInv(old(db.View())) {
        ViewAt(db.runs, db.events, db.checkpoints, lease.runId);
        NextIdFresh(db.runs, db.events, db.checkpoints, lease.runId);
        ProposeCommitsIff(live, lease, at, callId, state, |db.checkpoints| + 1);
      }
      r := db.ProposeCheckpoint(lease, callId, state, at);
      if AllInv(old(db.View())) {
        WorkedKeepsInv(old(db.View()), db.View(), old(lease), lease, failed, renewedAt, ttl, r,
          (run, l) => Propose(run, l, at, callId, state, old(|db.checkpoints|) + 1),
          DoPropose(lease, at, callId, state, old(|db.checkpoints|) + 1));
      }
    }

    /** The first half of verify_checkpoint: the stored candidate, whatever record
        the caller passed with its id. */
    method FetchCandidate(candidate: Checkpoint, renewedAt: int, at: int) returns (r: Result<Checkpoint>)
      requires db.Valid()
      modifies this`lease, db
      ensures db.Valid()
      ensures Worked(old(db.View()), db.View(), old(lease), lease, failed, renewedAt, ttl, r,
        (run, l) => Query(run, GetCandidate(run, l, at, candidate.id)))
      ensures r.Ok? <==>
        && GateOpen(old(db.View()), old(lease), failed, renewedAt, at, ttl)
        && OpenCandidate(old(db.View())[lease.runId].checkpoints, candidate.id)
    {
      hide Inv, Renew, GetCandidate, OpenCandidate, ViewOf, TablesOk;
      var ready := Prepare(renewedAt);
      if ready.Err? {
        return Err(ready.error);
      }
      ghost var live := db.View()[lease.runId];
      Effects.CandidateReadIff(live, lease, at, candidate.id);
      r := db.GetCheckpointCandidate(lease, candidate.id, at);
    }

    /** The second half: the verifier's answer is stored and decides. */
    method Judge(id: int, verification: Verification, renewedAt: int, at: int) returns (r: Result<Checkpoint>)
      requires db.Valid()
      modifies this`lease, db
      ensures db.Valid()
      ensures Worked(old(db.View()), db.View(), old(lease), lease, failed, renewedAt, ttl, r,
        (run, l) => Decide(run, l, at, id, verification.passed, VerificationValue(verification)))
      ensures AllInv(old(db.View())) ==> AllInv(db.View())
      ensures AllInv(old(db.View())) ==>
        (r.Ok? <==>
          && GateOpen(old(db.View()), old(lease), failed, renewedAt, at, ttl)
          && OpenCandidate(old(db.View())[lease.runId].checkpoints, id))
    {
      hide Inv, Renew, Decide, ViewOf, TablesOk;
      var ready := Prepare(renewedAt);
      if ready.Err? {
        return Err(ready.error);
      }
      ghost var live := db.View()[lease.runId];
      if AllInv(old(db.View())) {
        DecideCommitsIff(live, lease, at, id, verification.passed, VerificationValue(verification));
      }
      r := db.DecideCheckpoint(lease, id, verification.passed, VerificationValue(verification), at);
      if AllInv(old(db.View())) {
        WorkedKeepsInv(old(db.View()), db.View(), old(lease), lease, failed, renewedAt, ttl, r,
          (run, l) => Decide(run, l, at, id, verification.passed, VerificationValue(verification)),
          DoDecide(lease, at, id, verification.passed, VerificationValue(verification)));
      }
    }

    /** The heartbeat has been stopped. The lease is released even if the
        heartbeat had failed; a failure of either is reported. */
    method Close() returns (r: Result<()>)
      requires db.Valid()
      modifies db
      ensures db.Valid()
      ensures var l, before := lease, old(db.View());
        var released := if l.runId in before then Release(before[l.runId], l).Reply() else Err(InvalidState);
        && Performed(before, db.View(), l.runId, released, InvalidState, run => Release(run, l))
        && r == if failed then Err(InvalidState) else released
      ensures AllInv(old(db.View())) ==> AllInv(db.View())
      ensures r.Ok? <==>
        !failed && lease.runId in old(db.View()) && HeldBy(old(db.View())[lease.runId], lease)
      ensures db.View() == Released(old(db.View()), lease)
    {
      hide Inv, ViewOf, TablesOk;
      var released := db.ReleaseRunLease(lease);
      r := if failed then Err(InvalidState) else released;
      if AllInv(old(db.View())) {
        var l := lease;
        PerformedKeepsInv(old(db.View()), db.View(), lease.runId, released, InvalidState, run => Release(run, l), DoRelease(lease));
      }
    }

    /** Releases the lease and ignores the answer. */
    method GiveBack()
      requires db.Valid()
      modifies db`runs
      ensures db.Valid()
      ensures db.View() == Released(old(db.View()), lease)
      ensures AllInv(old(db.View())) ==> AllInv(db.View())
    {
      hide Inv, ViewOf, TablesOk;
      var released := db.ReleaseRunLease(lease);
      if AllInv(old(db.View())) {
        var l := lease;
        PerformedKeepsInv(old(db.View()), db.View(), lease.runId, released, InvalidState, run => Release(run, l), DoRelease(lease));
      }
    }

    /** The attempt in complete(): a healthy heartbeat, a renewal, the completion. */
    method TryComplete(renewedAt: int, at: int) returns (r: Result<()>)
      requires db.Valid()
      modifies this`lease, db
      ensures db.Valid()
      ensures lease.runId == old(lease).runId
      ensures Worked(old(db.View()), db.View(), old(lease), lease, failed, renewedAt, ttl, r, (run, l) => Runs.Complete(run, l, at))
      ensures r.Ok? ==> !failed
      ensures r.Err? ==> Released(db.View(), lease) == Released(old(db.View()), old(lease))
      ensures AllInv(old(db.View())) ==> AllInv(db.View())
      ensures r.Ok? <==> GateOpen(old(db.View()), old(lease), failed, renewedAt, at, ttl)
      ensures r.Ok? ==>
        var run := old(db.View())[lease.runId];
        db.View() == old(db.View())[lease.runId := run.(status := Completed, owner := None, expires := None,
          log := run.log + [Event(StateTransition, Transition(Running, Completed), None)])]
    {
      hide Inv, Renew, ViewOf, TablesOk;
      var ready := Prepare(renewedAt);
      if ready.Err? {
        return Err(ready.error);
      }
      ghost var live := db.View()[lease.runId];
      Effects.CompleteCommitsIff(live, lease, at);
      r := db.CompleteRun(lease, at);
      if lease.runId in old(db.View()) {
        RenewThenRelease(old(db.View())[lease.runId], old(lease), renewedAt, DurationToMillis(ttl).value);
      }
      if AllInv(old(db.View())) {
        WorkedKeepsInv(old(db.View()), db.View(), old(lease), lease, failed, renewedAt, ttl, r,
          (run, l) => Runs.Complete(run, l, at), DoComplete(lease, at));
      }
    }

    /** The heartbeat has been stopped. The run completes with its lease renewed
        and its heartbeat never failed; otherwise exactly its lease is given up. */
    method Complete(renewedAt: int, at: int) returns (r: Result<()>)
      requires db.Valid()
      modifies this`lease, db
      ensures db.Valid() && lease.runId == old(lease).runId
      ensures r.Ok? ==> !failed && Worked(old(db.View()), db.View(), old(lease), lease, failed, renewedAt, ttl, r,
        (run, l) => Runs.Complete(run, l, at))
      ensures r.Ok? <==> GateOpen(old(db.View()), old(lease), failed, renewedAt, at, ttl)
      ensures r.Ok? ==>
        var run := old(db.View())[lease.runId];
        db.View() == old(db.View())[lease.runId := run.(status := Completed, owner := None, expires := None,
          log := run.log + [Event(StateTransition, Transition(Running, Completed), None)])]
      ensures r.Err? ==> db.View() == Released(old(db.View()), old(lease))
      ensures AllInv(old(db.View())) ==> AllInv(db.View())
    {
      hide Inv, UnderLease, GateOpen, ViewOf, TablesOk;
      r := TryComplete(renewedAt, at);
      if r.Err? {
        GiveBack();
      }
    }

    /** state() with no writer in between. */
    method State() returns (r: Result<(Run, Option<Checkpoint>, seq<Event>)>)
      requires db.Valid()
      ensures lease.runId !in db.View() ==> r == Err(NotFound)
      ensures lease.runId in db.View() ==>
        var run := db.View()[lease.runId];
        var checkpoint := LatestWith(run.checkpoints, Accepted);
        r == Ok((run, checkpoint, EventsAfter(run.log, AfterSeq(checkpoint))))
      ensures lease.runId in db.View() && Inv(db.View()[lease.runId]) ==>
        r.Ok? && r.value.0 == db.View()[lease.runId]
        && StateOf(r.value.0.checkpoints, r.value.0.log, r.value.1, r.value.2)
    {
      if lease.runId in db.View() && Inv(db.View()[lease.runId]) {
        StateIsExact(db.View()[lease.runId]);
      }
      hide Inv, StateOf, LatestWith, EventsAfter;
      if lease.runId !in db.runs {
        return Err(NotFound);
      }
      var rows, log := Rows(db.checkpoints, lease.runId), Log(db.events, lease.runId);
      var checkpoint := LatestWith(rows, Accepted);
      return Ok((RunOf(db.runs[lease.runId], log, rows), checkpoint, EventsAfter(log, AfterSeq(checkpoint))));
    }
  }
}

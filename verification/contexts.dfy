/** Any number of agent contexts and their heartbeat tasks on one run, stepping
    in any order. A step is one database transaction, one lock operation or one
    local action; between two steps of a context everybody else may act. */
module Contexts {
  import opened Types
  import opened Runs
  import opened Invariant
  import opened History
  import opened Fencing

  /** What an AgentContext method does under the gate. */
  datatype Work =
    | Respond(response: Payload)
    | SaveResult(callId: string, content: Value)
    | ProposeState(callId: string, state: CheckpointState)
    | Fetch(checkpoint: int)
    | Judge(checkpoint: int, state: CheckpointState, verification: Verification)
    | Read

  /** Where the owner of a context is. */
  datatype Main =
    | Claimed
    | ClaimFailed
    | Idle
    | Wants(work: Work)
    | Holding(work: Work)
    | Healthy(work: Work)
    | Renewed(work: Work)
    | Verifying(checkpoint: int, state: CheckpointState)
    | Stopping(complete: bool)
    | Stopped(complete: bool)
    | Completing
    | Finishing
    | Releasing
    | Gone

  /** Where the heartbeat task is. */
  datatype Beat = Off | Sleeping | WantsGate | Renewing | Ended(panicked: bool)

  datatype Gate = Free | ByMain | ByBeat

  datatype Ctx = Ctx(lease: Lease, ttlMs: int, main: Main, beat: Beat, gate: Gate, stop: bool, failed: bool)

  datatype VerifierCall = VerifierCall(state: CheckpointState, verification: Verification)

  /** The run, every context ever created, and the verifier calls so far. */
  datatype Sys = Sys(run: Run, ctxs: map<nat, Ctx>, calls: seq<VerifierCall>)

  /** CancelMethod: the future of a method is dropped between two of its steps,
      as by a timeout, and the context is used on. DropContext: all of it is. */
  datatype Act =
    | Open(c: nat, owner: Uuid, now: int, ttlMs: int, recover: bool)
    | Begin(c: nat, now: int)
    | AbandonClaim(c: nat)
    | ClaimByWorker(c: nat, owner: Uuid, now: int, ttlMs: int)
    | CallMethod(c: nat, work: Work)
    | CallVerify(c: nat, candidate: Checkpoint)
    | TakeGate(c: nat)
    | CheckHealth(c: nat)
    | RenewForWork(c: nat, now: int)
    | Execute(c: nat, now: int, rowId: int)
    | VerifierReturns(c: nat, verification: Option<Verification>)
    | End(c: nat, complete: bool)
    | Join(c: nat)
    | CheckStopped(c: nat)
    | RenewToComplete(c: nat, now: int)
    | WriteCompletion(c: nat, now: int)
    | ReleaseLease(c: nat)
    | BeatWakes(c: nat)
    | BeatTakesGate(c: nat)
    | BeatRenews(c: nat, now: int)
    | BeatStops(c: nat)
    | BeatPanics(c: nat)
    | CancelMethod(c: nat)
    | DropContext(c: nat)

  function Init(createdAt: int): Sys {
    Sys(NewRun(createdAt), map[], [])
  }

  /** The transaction of a piece of work, if it writes. */
  function WorkOp(work: Work, lease: Lease, now: int, rowId: int): Option<Op> {
    match work
    case Respond(response) =>
      if response.Response? then Some(DoRespond(lease, now, response, IntentsFor(response.calls))) else None
    case SaveResult(callId, content) => Some(DoResult(lease, now, callId, content))
    case ProposeState(callId, state) => Some(DoPropose(lease, now, callId, state, rowId))
    case Judge(id, _, v) => Some(DoDecide(lease, now, id, v.passed, VerificationValue(v)))
    case Fetch(_) => None
    case Read => None
  }

  /** The writing transaction an act issues, if it is enabled. */
  function Issued(s: Sys, a: Act): Option<Op> {
    if a.Open? || a.ClaimByWorker? then
      if a.c in s.ctxs then None
      else if a.Open? then Some(DoClaim(a.owner, a.now, a.ttlMs, a.recover))
      else Some(DoClaimNext(a.owner, a.now, a.ttlMs))
    else if a.c !in s.ctxs then None
    else
      var ctx := s.ctxs[a.c];
      match a
      case Begin(_, now) => if ctx.main.Claimed? then Some(DoSetStatus(ctx.lease, now, Running)) else None
      case AbandonClaim(_) => if ctx.main.ClaimFailed? then Some(DoRelease(ctx.lease)) else None
      case RenewForWork(_, now) => if ctx.main.Healthy? then Some(DoRenew(ctx.lease, now, ctx.ttlMs)) else None
      case Execute(_, now, rowId) => if ctx.main.Renewed? then WorkOp(ctx.main.work, ctx.lease, now, rowId) else None
      case RenewToComplete(_, now) => if ctx.main.Completing? then Some(DoRenew(ctx.lease, now, ctx.ttlMs)) else None
      case WriteCompletion(_, now) => if ctx.main.Finishing? then Some(DoComplete(ctx.lease, now)) else None
      case ReleaseLease(_) => if ctx.main.Releasing? then Some(DoRelease(ctx.lease)) else None
      case BeatRenews(_, now) => if ctx.beat.Renewing? then Some(DoRenew(ctx.lease, now, ctx.ttlMs)) else None
      case _ => None
  }

  /** The context an opening act creates. */
  function Opened(s: Sys, a: Act): Option<Ctx>
    requires a.Open? || a.ClaimByWorker?
  {
    if a.Open? then
      match Claim(s.run, 0, a.owner, a.now, a.ttlMs, a.recover)
      case Commit(_, lease) => Some(Ctx(lease, a.ttlMs, Claimed, Off, Free, false, false))
      case Abort(_) => None
    else if Claimable(s.run, a.now) then
      match ClaimSelected(s.run, 0, a.owner, a.now, a.ttlMs)
      case Commit(_, lease) => Some(Ctx(lease, a.ttlMs, Idle, Sleeping, Free, false, false))
      case Abort(_) => None
    else None
  }

  /** Where the owner goes after the transaction of its work; the gate is free
      again. checkpoint() goes on to verify what it proposed. */
  function AfterWork(run: Run, ctx: Ctx, now: int, rowId: int): Main
    requires ctx.main.Renewed?
  {
    match ctx.main.work
    case ProposeState(callId, state) =>
      if FreshId(run, rowId) && Propose(run, ctx.lease, now, callId, state, rowId).Commit? then Wants(Fetch(rowId)) else Idle
    case Fetch(id) =>
      (match GetCandidate(run, ctx.lease, now, id)
       case Ok(row) => Verifying(row.id, row.state)
       case Err(_) => Idle)
    case _ => Idle
  }

  /** The context after one of its own acts. */
  function Moved(run: Run, ctx: Ctx, a: Act): Ctx {
    match a
    case Begin(_, now) =>
      if !ctx.main.Claimed? then ctx
      else if SetStatus(run, ctx.lease, now, Running).Commit? then ctx.(main := Idle, beat := Sleeping)
      else ctx.(main := ClaimFailed)
    case AbandonClaim(_) => if ctx.main.ClaimFailed? then ctx.(main := Gone) else ctx
    case CallMethod(_, work) =>
      if ctx.main.Idle? && !work.Fetch? && !work.Judge? then ctx.(main := Wants(work)) else ctx
    case CallVerify(_, candidate) => if ctx.main.Idle? then ctx.(main := Wants(Fetch(candidate.id))) else ctx
    case TakeGate(_) =>
      if ctx.main.Wants? && ctx.gate.Free? then ctx.(main := Holding(ctx.main.work), gate := ByMain) else ctx
    case CheckHealth(_) =>
      if !ctx.main.Holding? then ctx
      else if ctx.failed then ctx.(main := Idle, gate := Free)
      else ctx.(main := Healthy(ctx.main.work))
    case RenewForWork(_, now) =>
      if !ctx.main.Healthy? then ctx
      else
        (match Renew(run, ctx.lease, now, ctx.ttlMs)
         case Commit(_, lease) => ctx.(main := Renewed(ctx.main.work), lease := lease)
         case Abort(_) => ctx.(main := Idle, gate := Free))
    case Execute(_, now, rowId) =>
      if ctx.main.Renewed? then ctx.(main := AfterWork(run, ctx, now, rowId), gate := Free) else ctx
    case VerifierReturns(_, verification) =>
      if !ctx.main.Verifying? then ctx
      else
        (match verification
         case Some(v) => ctx.(main := Wants(Judge(ctx.main.checkpoint, ctx.main.state, v)))
         case None => ctx.(main := Idle))
    case End(_, complete) => if ctx.main.Idle? then ctx.(main := Stopping(complete), stop := true) else ctx
    case Join(_) =>
      if ctx.main.Stopping? && ctx.beat.Ended? then
        ctx.(main := Stopped(ctx.main.complete), failed := ctx.failed || ctx.beat.panicked)
      else ctx
    case CheckStopped(_) =>
      if !ctx.main.Stopped? then ctx
      else if ctx.main.complete && !ctx.failed then ctx.(main := Completing)
      else ctx.(main := Releasing)
    case RenewToComplete(_, now) =>
      if !ctx.main.Completing? then ctx
      else
        (match Renew(run, ctx.lease, now, ctx.ttlMs)
         case Commit(_, lease) => ctx.(main := Finishing, lease := lease)
         case Abort(_) => ctx.(main := Releasing))
    case WriteCompletion(_, now) =>
      if !ctx.main.Finishing? then ctx
      else if Complete(run, ctx.lease, now).Commit? then ctx.(main := Gone)
      else ctx.(main := Releasing)
    case ReleaseLease(_) => if ctx.main.Releasing? then ctx.(main := Gone) else ctx
    case BeatWakes(_) => if ctx.beat.Sleeping? then ctx.(beat := WantsGate) else ctx
    case BeatTakesGate(_) =>
      if ctx.beat.WantsGate? && ctx.gate.Free? then ctx.(beat := Renewing, gate := ByBeat) else ctx
    case BeatRenews(_, now) =>
      if !ctx.beat.Renewing? then ctx
      else if Renew(run, ctx.lease, now, ctx.ttlMs).Commit? then ctx.(beat := Sleeping, gate := Free)
      else ctx.(beat := Ended(false), gate := Free, failed := true)
    case BeatStops(_) => if ctx.beat.Sleeping? && ctx.stop then ctx.(beat := Ended(false)) else ctx
    case BeatPanics(_) =>
      if ctx.beat.Renewing? then ctx.(beat := Ended(true), gate := Free)
      else if ctx.beat.Sleeping? || ctx.beat.WantsGate? then ctx.(beat := Ended(true))
      else ctx
    case CancelMethod(_) =>
      if ctx.main.Wants? || ctx.main.Holding? || ctx.main.Healthy? || ctx.main.Renewed? || ctx.main.Verifying? then
        ctx.(main := Idle, gate := if ctx.gate.ByMain? then Free else ctx.gate)
      else ctx
    case DropContext(_) =>
      ctx.(main := Gone, stop := true,
           gate := if ctx.gate.ByMain? then Free else ctx.gate)
    case _ => ctx
  }

  function Step(s: Sys, a: Act): Sys {
    var run := if Issued(s, a).Some? then Next(s.run, Issued(s, a).value) else s.run;
    if a.Open? || a.ClaimByWorker? then
      if a.c !in s.ctxs && Opened(s, a).Some? then s.(run := run, ctxs := s.ctxs[a.c := Opened(s, a).value])
      else s.(run := run)
    else if a.c !in s.ctxs then s
    else
      var ctx := s.ctxs[a.c];
      var calls := if a.VerifierReturns? && ctx.main.Verifying? && a.verification.Some?
        then s.calls + [VerifierCall(ctx.main.state, a.verification.value)] else s.calls;
      Sys(run, s.ctxs[a.c := Moved(s.run, ctx, a)], calls)
  }

  function Steps(s: Sys, acts: seq<Act>): Sys {
    if acts == [] then s else Step(Steps(s, acts[..|acts| - 1]), acts[|acts| - 1])
  }

  // ---------- The invariant ----------

  /** One context: the gate says who holds it, the failure flag stops the owner
      at its next check, and the heartbeat is over before completion. */
  predicate CtxOk(ctx: Ctx) {
    && (ctx.main.Holding? || ctx.main.Healthy? || ctx.main.Renewed? <==> ctx.gate.ByMain?)
    && (ctx.beat.Renewing? <==> ctx.gate.ByBeat?)
    && (ctx.main.Claimed? || ctx.main.ClaimFailed? ==> ctx.beat.Off? && !ctx.failed)
    && (ctx.main.Stopped? || ctx.main.Completing? || ctx.main.Finishing? ==> ctx.beat.Ended?)
    && (ctx.failed ==> !ctx.main.Healthy? && !ctx.main.Renewed? && !ctx.main.Completing? && !ctx.main.Finishing?)
  }

  predicate StoredState(rows: seq<Checkpoint>, id: int, state: CheckpointState) {
    exists k :: 0 <= k < |rows| && rows[k].id == id && rows[k].state == state
  }

  predicate Called(calls: seq<VerifierCall>, state: CheckpointState, verification: Verification) {
    exists i :: 0 <= i < |calls| && calls[i] == VerifierCall(state, verification)
  }

  function WorkOf(main: Main): Work {
    match main
    case Wants(work) => work
    case Holding(work) => work
    case Healthy(work) => work
    case Renewed(work) => work
    case _ => Read
  }

  /** What a context carries through verify_checkpoint is what is stored, and a
      verdict it carries was returned for that state. */
  predicate CarriesStored(rows: seq<Checkpoint>, calls: seq<VerifierCall>, main: Main) {
    && (main.Verifying? ==> StoredState(rows, main.checkpoint, main.state))
    && (WorkOf(main).Judge? ==>
          && StoredState(rows, WorkOf(main).checkpoint, WorkOf(main).state)
          && Called(calls, WorkOf(main).state, WorkOf(main).verification))
  }

  predicate VerifiedBy(row: Checkpoint, call: VerifierCall) {
    && row.state == call.state
    && row.status == Verdict(call.verification.passed)
    && row.verification == Some(VerificationValue(call.verification))
  }

  /** The row's decision is what a verifier said about the row's own state. */
  predicate Verified(calls: seq<VerifierCall>, row: Checkpoint) {
    exists i :: 0 <= i < |calls| && VerifiedBy(row, calls[i])
  }

  predicate LeasesOk(s: Sys) {
    && (forall c :: c in s.ctxs ==> s.ctxs[c].lease.epoch <= s.run.epoch)
    && (forall c, d :: c in s.ctxs && d in s.ctxs && c != d ==> s.ctxs[c].lease.epoch != s.ctxs[d].lease.epoch)
  }

  predicate SysInv(s: Sys) {
    && Inv(s.run)
    && LeasesOk(s)
    && (forall c :: c in s.ctxs ==> CtxOk(s.ctxs[c]) && CarriesStored(s.run.checkpoints, s.calls, s.ctxs[c].main))
    && (forall k :: 0 <= k < |s.run.checkpoints| && !s.run.checkpoints[k].status.Candidate? ==>
          Verified(s.calls, s.run.checkpoints[k]))
  }

  // ---------- It is kept ----------

  lemma {:induction false} IssuedIsAgentOp(s: Sys, a: Act)
    ensures Issued(s, a).Some? ==> AgentOp(Issued(s, a).value)
  {
  }

  /** The run side of a step is at most one agent transaction. */
  lemma {:induction false} StepRun(s: Sys, a: Act)
    ensures Step(s, a).run == if Issued(s, a).Some? then Next(s.run, Issued(s, a).value) else s.run
    ensures Inv(s.run) ==> Inv(Step(s, a).run)
    ensures Extends(s.run, Step(s, a).run)
    ensures s.calls <= Step(s, a).calls
  {
    hide Inv, Next, Moved, Opened;
    IssuedIsAgentOp(s, a);
    if Issued(s, a).Some? {
      NextExtends(s.run, Issued(s, a).value);
      if Inv(s.run) {
        NextPreserves(s.run, Issued(s, a).value);
      }
    }
  }

  lemma {:induction false} MovedOk(run: Run, ctx: Ctx, a: Act)
    requires CtxOk(ctx)
    ensures CtxOk(Moved(run, ctx, a))
    ensures Moved(run, ctx, a).lease.epoch == ctx.lease.epoch
    ensures ctx.failed ==> Moved(run, ctx, a).failed
  {
    hide Renew, SetStatus, Complete, Propose, GetCandidate, FreshId;
    assert forall lease, now, ttlMs {:trigger Renew(run, lease, now, ttlMs)} ::
      Renew(run, lease, now, ttlMs).Commit? ==> Renew(run, lease, now, ttlMs).value.epoch == lease.epoch by {
      forall lease, now, ttlMs {
        RenewKeepsEpoch(run, lease, now, ttlMs);
      }
    }
  }

  lemma {:induction false} RenewKeepsEpoch(run: Run, lease: Lease, now: int, ttlMs: int)
    ensures Renew(run, lease, now, ttlMs).Commit? ==> Renew(run, lease, now, ttlMs).value.epoch == lease.epoch
  {
  }

  lemma {:induction false} StoredKept(before: Run, after: Run, id: int, state: CheckpointState)
    requires Extends(before, after) && StoredState(before.checkpoints, id, state)
    ensures StoredState(after.checkpoints, id, state)
  {
    var k :| 0 <= k < |before.checkpoints| && before.checkpoints[k].id == id && before.checkpoints[k].state == state;
    assert RowKept(before.checkpoints[k], after.checkpoints[k]);
  }

  lemma {:induction false} CalledKept(before: seq<VerifierCall>, after: seq<VerifierCall>, state: CheckpointState, v: Verification)
    requires before <= after && Called(before, state, v)
    ensures Called(after, state, v)
  {
    var i :| 0 <= i < |before| && before[i] == VerifierCall(state, v);
    assert after[i] == before[i];
  }

  lemma {:induction false} CarriesKept(before: Sys, after: Sys, main: Main)
    requires Extends(before.run, after.run) && before.calls <= after.calls
    requires CarriesStored(before.run.checkpoints, before.calls, main)
    ensures CarriesStored(after.run.checkpoints, after.calls, main)
  {
    if main.Verifying? {
      StoredKept(before.run, after.run, main.checkpoint, main.state);
    }
    if WorkOf(main).Judge? {
      StoredKept(before.run, after.run, WorkOf(main).checkpoint, WorkOf(main).state);
      CalledKept(before.calls, after.calls, WorkOf(main).state, WorkOf(main).verification);
    }
  }

  lemma {:induction false} FetchCarries(run: Run, calls: seq<VerifierCall>, ctx: Ctx, now: int, rowId: int)
    requires ctx.main.Renewed?
    ensures CarriesStored(run.checkpoints, calls, AfterWork(run, ctx, now, rowId))
  {
    hide Propose, FreshId, Called, LatestWith;
    if ctx.main.work.Fetch? && GetCandidate(run, ctx.lease, now, ctx.main.work.checkpoint).Ok? {
      var k := CandidateIndex(run.checkpoints, ctx.main.work.checkpoint);
      assert StoredState(run.checkpoints, run.checkpoints[k].id, run.checkpoints[k].state);
    }
  }

  lemma {:induction false} AnswerCarries(rows: seq<Checkpoint>, calls: seq<VerifierCall>, main: Main, v: Verification)
    requires main.Verifying? && CarriesStored(rows, calls, main)
    ensures CarriesStored(rows, calls + [VerifierCall(main.state, v)], Wants(Judge(main.checkpoint, main.state, v)))
  {
    hide StoredState;
    assert (calls + [VerifierCall(main.state, v)])[|calls|] == VerifierCall(main.state, v);
  }

  /** Other acts carry on what was carried, or nothing. */
  lemma {:induction false} OtherActsCarry(run: Run, calls: seq<VerifierCall>, ctx: Ctx, a: Act)
    requires CarriesStored(run.checkpoints, calls, ctx.main) && !a.Execute?
    requires a.VerifierReturns? ==> !ctx.main.Verifying? || a.verification.None?
    ensures CarriesStored(run.checkpoints, calls, Moved(run, ctx, a).main)
  {
    hide Renew, SetStatus, Complete, StoredState, Called, AfterWork;
  }

  lemma {:induction false} CallsAfter(s: Sys, a: Act)
    requires a.c in s.ctxs && !a.Open? && !a.ClaimByWorker?
    ensures Step(s, a).calls ==
      if a.VerifierReturns? && s.ctxs[a.c].main.Verifying? && a.verification.Some?
      then s.calls + [VerifierCall(s.ctxs[a.c].main.state, a.verification.value)] else s.calls
  {
    hide Next, Issued, Moved;
  }

  lemma {:induction false} CtxCarries(s: Sys, c: nat)
    requires SysInv(s) && c in s.ctxs
    ensures CarriesStored(s.run.checkpoints, s.calls, s.ctxs[c].main)
  {
    hide Inv, LeasesOk, CtxOk, Verified, CarriesStored;
  }

  /** The acting context still carries what is stored. */
  lemma {:induction false} MovedCarries(s: Sys, a: Act)
    requires SysInv(s) && a.c in s.ctxs && !a.Open? && !a.ClaimByWorker?
    ensures CarriesStored(s.run.checkpoints, Step(s, a).calls, Moved(s.run, s.ctxs[a.c], a).main)
  {
    hide SysInv, Step, CarriesStored;
    var ctx := s.ctxs[a.c];
    CtxCarries(s, a.c);
    CallsAfter(s, a);
    if a.VerifierReturns? && ctx.main.Verifying? && a.verification.Some? {
      AnswerCarries(s.run.checkpoints, s.calls, ctx.main, a.verification.value);
    } else if a.Execute? {
      if ctx.main.Renewed? {
        FetchCarries(s.run, s.calls, ctx, a.now, a.rowId);
      }
    } else {
      hide Moved;
      OtherActsCarry(s.run, s.calls, ctx, a);
    }
  }

  // ---------- Decisions ----------

  /** Only a decision decides. */
  lemma {:induction false} OthersDecideNothing(run: Run, op: Op, k: nat)
    requires !op.DoDecide? && k < |Next(run, op).checkpoints| && !Next(run, op).checkpoints[k].status.Candidate?
    ensures k < |run.checkpoints| && run.checkpoints[k] == Next(run, op).checkpoints[k]
  {
    hide InsertAll, Insert, PendingStandalone, FirstOf, LatestWith;
  }

  lemma {:induction false} DecideDecidesOne(run: Run, lease: Lease, now: int, id: int, accepted: bool, verification: Value, k: nat)
    requires k < |Next(run, DoDecide(lease, now, id, accepted, verification)).checkpoints|
    ensures var after := Next(run, DoDecide(lease, now, id, accepted, verification)).checkpoints;
      && k < |run.checkpoints|
      && (after[k] == run.checkpoints[k]
          || (run.checkpoints[k].id == id && run.checkpoints[k].status.Candidate?
              && after[k] == DecidedRow(run.checkpoints[k], |run.log|, accepted, verification)))
  {
    hide InsertAll, Insert;
  }

  lemma {:induction false} IdsDiffer(rows: seq<Checkpoint>, k: nat, l: nat)
    requires RowsOrdered(rows) && k < |rows| && l < |rows| && rows[k].id == rows[l].id
    ensures k == l
  {
  }

  predicate DecidedIn(run: Run, k: nat) {
    k < |run.checkpoints| && !run.checkpoints[k].status.Candidate?
  }

  lemma {:induction false} UndecidedRowsVerified(s: Sys, a: Act, k: nat)
    requires SysInv(s) && (Issued(s, a).Some? ==> !Issued(s, a).value.DoDecide?)
    ensures DecidedIn(Step(s, a).run, k) ==> Verified(Step(s, a).calls, Step(s, a).run.checkpoints[k])
  {
    hide Inv, LeasesOk, CtxOk, CarriesStored, Verified, Next, Moved, Opened, Issued, Extends;
    StepRun(s, a);
    if DecidedIn(Step(s, a).run, k) {
      if Issued(s, a).Some? {
        OthersDecideNothing(s.run, Issued(s, a).value, k);
      }
      VerifiedKept(s.calls, Step(s, a).calls, Step(s, a).run.checkpoints[k]);
    }
  }

  /** The decision is the verdict that the context carries. */
  predicate DecidesCarried(s: Sys, c: nat, op: Op)
    requires op.DoDecide?
  {
    && c in s.ctxs && s.ctxs[c].main.Renewed? && s.ctxs[c].main.work.Judge?
    && var work := s.ctxs[c].main.work;
       && CarriesStored(s.run.checkpoints, s.calls, Renewed(work))
       && op.checkpoint == work.checkpoint && op.accepted == work.verification.passed
       && op.verification == VerificationValue(work.verification)
  }

  lemma {:induction false} DecidingCarries(s: Sys, a: Act)
    requires SysInv(s)
    ensures Issued(s, a).Some? && Issued(s, a).value.DoDecide? ==> DecidesCarried(s, a.c, Issued(s, a).value)
  {
    hide Inv, LeasesOk, CtxOk, Verified;
  }

  lemma {:induction false} DecidedRowsVerified(s: Sys, a: Act, k: nat)
    requires SysInv(s)
    ensures DecidedIn(Step(s, a).run, k) ==> Verified(Step(s, a).calls, Step(s, a).run.checkpoints[k])
  {
    if Issued(s, a).None? || !Issued(s, a).value.DoDecide? {
      hide SysInv, Step, Verified;
      UndecidedRowsVerified(s, a, k);
    } else if DecidedIn(Step(s, a).run, k) {
      hide Inv, LeasesOk, CtxOk, CarriesStored, Verified, Next, Moved, Opened, Issued, Extends;
      StepRun(s, a);
      DecidingCarries(s, a);
      OrderedRows(s.run);
      var op := Issued(s, a).value;
      DecideDecidesOne(s.run, op.lease, op.now, op.checkpoint, op.accepted, op.verification, k);
      if s.run.checkpoints[k].status.Candidate? {
        JudgedRowVerified(s.run.checkpoints, s.calls, s.ctxs[a.c].main.work, k, |s.run.log|);
      }
      VerifiedKept(s.calls, Step(s, a).calls, Step(s, a).run.checkpoints[k]);
    }
  }

  lemma {:induction false} VerifiedKept(before: seq<VerifierCall>, after: seq<VerifierCall>, row: Checkpoint)
    requires before <= after && Verified(before, row)
    ensures Verified(after, row)
  {
    var i :| 0 <= i < |before| && VerifiedBy(row, before[i]);
    assert after[i] == before[i];
  }

  /** The row a context decides has the state its verifier was called on: the
      id it fetched still names the row it fetched. */
  lemma {:induction false} JudgedRowVerified(rows: seq<Checkpoint>, calls: seq<VerifierCall>, work: Work, k: nat, seqNo: int)
    requires RowsOrdered(rows) && work.Judge? && CarriesStored(rows, calls, Renewed(work))
    requires k < |rows| && rows[k].id == work.checkpoint
    ensures Verified(calls, DecidedRow(rows[k], seqNo, work.verification.passed, VerificationValue(work.verification)))
  {
    var l :| 0 <= l < |rows| && rows[l].id == work.checkpoint && rows[l].state == work.state;
    IdsDiffer(rows, k, l);
    var i :| 0 <= i < |calls| && calls[i] == VerifierCall(work.state, work.verification);
    assert VerifiedBy(DecidedRow(rows[k], seqNo, work.verification.passed, VerificationValue(work.verification)), calls[i]);
  }

  // ---------- Every reachable system ----------

  lemma {:induction false} OpenedFresh(s: Sys, a: Act)
    requires a.Open? || a.ClaimByWorker?
    requires a.c !in s.ctxs && Opened(s, a).Some?
    ensures Opened(s, a).value.lease.epoch == s.run.epoch + 1 == Step(s, a).run.epoch
    ensures CtxOk(Opened(s, a).value)
    ensures Opened(s, a).value.main.Claimed? || Opened(s, a).value.main.Idle?
  {
  }

  lemma {:induction false} LeasesKept(s: Sys, a: Act)
    requires SysInv(s)
    ensures LeasesOk(Step(s, a))
  {
    hide Inv, Next, Issued, Opened, Moved, CarriesStored, Verified;
    StepRun(s, a);
    if a.Open? || a.ClaimByWorker? {
      if a.c !in s.ctxs && Opened(s, a).Some? {
        OpenedFresh(s, a);
      }
    } else if a.c in s.ctxs {
      MovedOk(s.run, s.ctxs[a.c], a);
    }
  }

  lemma {:induction false} StepInv(s: Sys, a: Act)
    requires SysInv(s)
    ensures SysInv(Step(s, a))
  {
    hide Inv, LeasesOk, Next, Issued, Opened, Moved, CtxOk, Verified, CarriesStored, Extends;
    var t := Step(s, a);
    StepRun(s, a);
    LeasesKept(s, a);
    forall k | 0 <= k < |t.run.checkpoints| && !t.run.checkpoints[k].status.Candidate?
      ensures Verified(t.calls, t.run.checkpoints[k])
    {
      DecidedRowsVerified(s, a, k);
    }
    forall c | c in t.ctxs
      ensures CtxOk(t.ctxs[c]) && CarriesStored(t.run.checkpoints, t.calls, t.ctxs[c].main)
    {
      CtxKept(s, a, c);
    }
  }

  lemma {:induction false} CtxKept(s: Sys, a: Act, c: nat)
    requires SysInv(s) && c in Step(s, a).ctxs
    ensures CtxOk(Step(s, a).ctxs[c])
    ensures CarriesStored(Step(s, a).run.checkpoints, Step(s, a).calls, Step(s, a).ctxs[c].main)
  {
    hide Inv, LeasesOk, Next, Issued, Opened, Moved, CtxOk, Verified, Extends;
    var t := Step(s, a);
    StepRun(s, a);
    if c != a.c || (c in s.ctxs && (a.Open? || a.ClaimByWorker?)) {
      CarriesKept(s, t, s.ctxs[c].main);
    } else if a.Open? || a.ClaimByWorker? {
      OpenedFresh(s, a);
    } else {
      MovedOk(s.run, s.ctxs[c], a);
      MovedCarries(s, a);
      CarriesKept(s.(calls := t.calls), t, t.ctxs[c].main);
    }
  }

  lemma {:induction false} StepsInv(createdAt: int, acts: seq<Act>)
    ensures SysInv(Steps(Init(createdAt), acts))
  {
    hide SysInv, Step;
    if acts == [] {
      assert SysInv(Init(createdAt)) by {
        InitInv(createdAt);
      }
    } else {
      StepsInv(createdAt, acts[..|acts| - 1]);
      StepInv(Steps(Init(createdAt), acts[..|acts| - 1]), acts[|acts| - 1]);
    }
  }

  lemma {:induction false} InitInv(createdAt: int)
    ensures SysInv(Init(createdAt))
  {
    hide Inv;
    NewRunInv(createdAt);
  }

  // ---------- Main results ----------

  /** Accepted means verified: however contexts interleave around the gap in
      verify_checkpoint, and whatever candidate record its caller passes, each
      decided checkpoint was decided as a verifier answered on exactly the state
      that is stored, with that answer as its stored verification. */
  lemma {:induction false} DecidedMeansVerified(createdAt: int, acts: seq<Act>, k: nat)
    requires k < |Steps(Init(createdAt), acts).run.checkpoints|
    requires !Steps(Init(createdAt), acts).run.checkpoints[k].status.Candidate?
    ensures Verified(Steps(Init(createdAt), acts).calls, Steps(Init(createdAt), acts).run.checkpoints[k])
  {
    hide Inv, Step, Verified;
    StepsInv(createdAt, acts);
  }

  /** And the decision is never made again: the row stays as it is. */
  lemma {:induction false} DecisionNeverChanges(s: Sys, acts: seq<Act>, k: nat)
    requires k < |s.run.checkpoints| && !s.run.checkpoints[k].status.Candidate?
    ensures k < |Steps(s, acts).run.checkpoints| && Steps(s, acts).run.checkpoints[k] == s.run.checkpoints[k]
  {
    hide Step;
    if acts != [] {
      DecisionNeverChanges(s, acts[..|acts| - 1], k);
      StepRun(Steps(s, acts[..|acts| - 1]), acts[|acts| - 1]);
    }
  }

  lemma {:induction false} LeaseOpsKeepContents(run: Run, op: Op)
    requires op.DoRenew? || op.DoRelease?
    ensures SameContents(run, Next(run, op))
  {
  }

  /** A context whose heartbeat has failed writes nothing: none of its acts
      appends an event, touches a checkpoint or changes the status. */
  lemma {:induction false} FailedWritesNothing(s: Sys, a: Act)
    requires SysInv(s) && a.c in s.ctxs && s.ctxs[a.c].failed
    ensures SameContents(s.run, Step(s, a).run)
    ensures Step(s, a).ctxs[a.c].failed
  {
    hide Inv, LeasesOk, Next, Verified, CarriesStored, Renew, Opened;
    StepRun(s, a);
    var ctx := s.ctxs[a.c];
    assert CtxOk(ctx);
    if Issued(s, a).Some? {
      assert Issued(s, a).value.DoRenew? || Issued(s, a).value.DoRelease?;
      LeaseOpsKeepContents(s.run, Issued(s, a).value);
    }
    if !a.Open? && !a.ClaimByWorker? {
      MovedOk(s.run, ctx, a);
    }
  }

  /** The failure flag is never cleared, across any steps of anyone. */
  lemma {:induction false} FailureSticks(s: Sys, acts: seq<Act>, c: nat)
    requires SysInv(s) && c in s.ctxs && s.ctxs[c].failed
    ensures SysInv(Steps(s, acts)) && c in Steps(s, acts).ctxs && Steps(s, acts).ctxs[c].failed
  {
    hide SysInv, Moved, Issued, Opened;
    if acts != [] {
      var before, a := Steps(s, acts[..|acts| - 1]), acts[|acts| - 1];
      FailureSticks(s, acts[..|acts| - 1], c);
      StepInv(before, a);
      if a.c == c {
        FailedWritesNothing(before, a);
      }
    }
  }

  /** After a heartbeat failure a context never writes again: not under the gate,
      not after a verifier returns, not by completing. */
  lemma {:induction false} NoWriteAfterFailure(s: Sys, acts: seq<Act>, a: Act)
    requires SysInv(s) && a.c in s.ctxs && s.ctxs[a.c].failed
    ensures SameContents(Steps(s, acts).run, Step(Steps(s, acts), a).run)
  {
    hide SysInv, Step, SameContents;
    FailureSticks(s, acts, a.c);
    FailedWritesNothing(Steps(s, acts), a);
  }

  /** At any moment at most one context can change the run at all: two contexts
      never hold the same epoch, and only the current epoch's transactions work. */
  lemma {:induction false} OneWriter(s: Sys, a: Act, b: Act)
    requires SysInv(s) && a.c in s.ctxs && b.c in s.ctxs && a.c != b.c
    ensures Step(s, a).run == s.run || Step(s, b).run == s.run
  {
    hide Inv, Next, Moved, Opened, Verified, CarriesStored, CtxOk;
    StepRun(s, a);
    StepRun(s, b);
    IssuedByLease(s, a);
    IssuedByLease(s, b);
    if Issued(s, a).Some? && Issued(s, b).Some? {
      if Issued(s, a).value.lease.epoch != s.run.epoch {
        OtherEpochHasNoEffect(s.run, Issued(s, a).value);
      } else {
        OtherEpochHasNoEffect(s.run, Issued(s, b).value);
      }
    }
  }

  lemma {:induction false} IssuedByLease(s: Sys, a: Act)
    requires a.c in s.ctxs
    ensures Issued(s, a).Some? ==> Issued(s, a).value.ByLease() && Issued(s, a).value.lease == s.ctxs[a.c].lease
  {
  }

  // ---------- Taking acts together ----------

  function AfterOp(run: Run, op: Option<Op>): Run {
    if op.Some? then Next(run, op.value) else run
  }

  lemma {:induction false} StepsSplit(s: Sys, first: seq<Act>, second: seq<Act>)
    ensures Steps(s, first + second) == Steps(Steps(s, first), second)
  {
    hide Step;
    if second == [] {
      assert first + second == first;
    } else {
      StepsSplit(s, first, second[..|second| - 1]);
      assert (first + second)[..|first + second| - 1] == first + second[..|second| - 1];
    }
  }

  lemma {:induction false} OneStep(s: Sys, a: Act)
    ensures Steps(s, [a]) == Step(s, a)
  {
    hide Step;
    assert [a][..0] == [];
  }

  lemma {:induction false} TwoSteps(s: Sys, a: Act, b: Act)
    ensures Steps(s, [a, b]) == Step(Step(s, a), b)
  {
    hide Step;
    OneStep(s, a);
    assert [a, b][..1] == [a];
  }

  lemma {:induction false} FourSteps(s: Sys, a: Act, b: Act, c: Act, d: Act)
    ensures Steps(s, [a, b, c, d]) == Step(Step(Step(Step(s, a), b), c), d)
  {
    hide Step;
    TwoSteps(s, a, b);
    TwoSteps(Step(Step(s, a), b), c, d);
    StepsSplit(s, [a, b], [c, d]);
    assert [a, b] + [c, d] == [a, b, c, d];
  }
}

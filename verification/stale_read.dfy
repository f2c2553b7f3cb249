/** A schedule in which state() misses an acceptance. A context proposes a
    checkpoint, its verifier fails, and it calls state(); after the checkpoint has
    been read and before the events are, another context recovers the run by
    force and accepts the checkpoint. All clock readings are the same. */
module StaleRead {
  import opened Types
  import opened Runs
  import opened Invariant
  import opened History
  import opened Contexts
  import Queue

  const TTL_MS := 30_000

  const READER := Lease(0, 1, 1, TTL_MS)

  const VERIFIER := Lease(0, 2, 2, TTL_MS)

  const STATE := CheckpointState([], [], [], [], [])

  const CALL := Call("call", CHECKPOINT_TOOL, StateDocument(STATE))

  const RESPONSE := Response(Document(""), [CALL], "tool_use")

  const ROW := Checkpoint(1, 1, CALL.id, 2, None, Candidate, STATE, None)

  const PASSED := Verification(true, Document(""))

  function IdleCtx(lease: Lease): Ctx {
    Ctx(lease, TTL_MS, Idle, Sleeping, Free, false, false)
  }

  /** The steps of a method once it wants the gate. */
  function UnderGate(c: nat, rowId: int): seq<Act> {
    [TakeGate(c), CheckHealth(c), RenewForWork(c, 0), Execute(c, 0, rowId)]
  }

  /** The first context works until it is free to call state(). */
  function BeforeRead(): seq<Act> {
    [Act.Open(0, 1, 0, TTL_MS, false), Begin(0, 0)]
    + ([CallMethod(0, Respond(RESPONSE))] + UnderGate(0, 0))
    + ([CallMethod(0, ProposeState(CALL.id, STATE))] + UnderGate(0, 1))
    + (UnderGate(0, 0) + [VerifierReturns(0, None)])
  }

  /** The second context, between the two reads. */
  function BetweenReads(): seq<Act> {
    [Act.Open(1, 2, 0, TTL_MS, true), Begin(1, 0)]
    + ([CallVerify(1, ROW)] + UnderGate(1, 0))
    + ([VerifierReturns(1, Some(PASSED))] + UnderGate(1, 0))
  }

  /** The run while a lease of this schedule is good. */
  predicate Live(run: Run, lease: Lease) {
    run.status == Running && run.owner == Some(lease.owner) && run.epoch == lease.epoch
    && run.expires == Some(TTL_MS) && lease.expires == TTL_MS
  }

  lemma {:induction false} RenewalStays(run: Run, lease: Lease)
    requires Live(run, lease)
    ensures Renew(run, lease, 0, TTL_MS) == Commit(run, lease)
    ensures Next(run, DoRenew(lease, 0, TTL_MS)) == run
  {
  }

  function WithMain(s: Sys, c: nat, lease: Lease, main: Main): Sys {
    s.(ctxs := s.ctxs[c := IdleCtx(lease).(main := main, gate := ByMain)])
  }

  lemma {:induction false} GateTaken(s: Sys, c: nat, lease: Lease, work: Work)
    requires c in s.ctxs && s.ctxs[c] == IdleCtx(lease).(main := Wants(work))
    ensures Step(s, TakeGate(c)) == WithMain(s, c, lease, Holding(work))
    ensures Step(WithMain(s, c, lease, Holding(work)), CheckHealth(c)) == WithMain(s, c, lease, Healthy(work))
  {
    hide Next;
    var taken := WithMain(s, c, lease, Holding(work));
    assert taken.ctxs[c := IdleCtx(lease).(main := Healthy(work), gate := ByMain)] == WithMain(s, c, lease, Healthy(work)).ctxs;
  }

  lemma {:induction false} LeaseRenewed(s: Sys, c: nat, lease: Lease, work: Work)
    requires Live(s.run, lease)
    ensures Step(WithMain(s, c, lease, Healthy(work)), RenewForWork(c, 0)) == WithMain(s, c, lease, Renewed(work))
  {
    RenewalStays(s.run, lease);
    hide Next, Renew, Live;
    var healthy := WithMain(s, c, lease, Healthy(work));
    assert healthy.ctxs[c := IdleCtx(lease).(main := Renewed(work), gate := ByMain)] == WithMain(s, c, lease, Renewed(work)).ctxs;
  }

  lemma {:induction false} WorkDone(s: Sys, c: nat, lease: Lease, work: Work, rowId: int)
    ensures Step(WithMain(s, c, lease, Renewed(work)), Execute(c, 0, rowId)) ==
      Sys(AfterOp(s.run, WorkOp(work, lease, 0, rowId)),
          s.ctxs[c := IdleCtx(lease).(main := AfterWork(s.run, IdleCtx(lease).(main := Renewed(work), gate := ByMain), 0, rowId))],
          s.calls)
  {
    hide Next, AfterWork, WorkOp;
  }

  /** Renewed at the same clock reading, the lease stays as it is. */
  lemma {:induction false} GateRuns(s: Sys, c: nat, lease: Lease, work: Work, rowId: int)
    requires c in s.ctxs && s.ctxs[c] == IdleCtx(lease).(main := Wants(work)) && Live(s.run, lease)
    ensures Steps(s, UnderGate(c, rowId)) ==
      Sys(AfterOp(s.run, WorkOp(work, lease, 0, rowId)),
          s.ctxs[c := IdleCtx(lease).(main := AfterWork(s.run, IdleCtx(lease).(main := Renewed(work), gate := ByMain), 0, rowId))],
          s.calls)
  {
    hide Step, Steps, AfterOp, AfterWork, WorkOp, WithMain, Live;
    FourSteps(s, TakeGate(c), CheckHealth(c), RenewForWork(c, 0), Execute(c, 0, rowId));
    GateTaken(s, c, lease, work);
    LeaseRenewed(s, c, lease, work);
    WorkDone(s, c, lease, work, rowId);
  }

  // ---------- The first context ----------

  const STARTED := Run(Running, 0, Some(1), 1, Some(TTL_MS), [START], [])

  const RESPONDING := DoRespond(READER, 0, RESPONSE, IntentsFor([CALL]))

  const PROPOSING := DoPropose(READER, 0, CALL.id, STATE, 1)

  const RESPONDED := Next(STARTED, RESPONDING)

  const PROPOSED := Next(RESPONDED, PROPOSING)

  lemma {:induction false} ContextOpens()
    ensures Steps(Init(0), [Act.Open(0, 1, 0, TTL_MS, false), Begin(0, 0)]) == Sys(STARTED, map[0 := IdleCtx(READER)], [])
  {
    var claimed := NewRun(0).(owner := Some(1), epoch := 1, expires := Some(TTL_MS));
    var created := Sys(claimed, map[0 := Ctx(READER, TTL_MS, Main.Claimed, Off, Free, false, false)], []);
    TwoSteps(Init(0), Act.Open(0, 1, 0, TTL_MS, false), Begin(0, 0));
    assert Step(Init(0), Act.Open(0, 1, 0, TTL_MS, false)) == created;
    assert [] + [START] == [START];
    assert Next(claimed, DoSetStatus(READER, 0, Running)) == STARTED;
    assert Step(created, Begin(0, 0)) == Sys(STARTED, map[0 := IdleCtx(READER)], []);
  }

  lemma {:induction false} StartedInv()
    ensures Inv(STARTED)
  {
    hide Step, Steps, SysInv;
    ContextOpens();
    StepsInv(0, [Act.Open(0, 1, 0, TTL_MS, false), Begin(0, 0)]);
    SysRunInv(Sys(STARTED, map[0 := IdleCtx(READER)], []));
  }

  lemma {:induction false} SysRunInv(s: Sys)
    requires SysInv(s)
    ensures Inv(s.run)
  {
    hide Inv;
  }

  lemma {:induction false} ResponseCommits()
    ensures AppendResponse(STARTED, READER, 0, RESPONSE, IntentsFor([CALL])).Commit?
    ensures Inv(RESPONDED) && Live(RESPONDED, READER) && |RESPONDED.log| == 3 && RESPONDED.checkpoints == []
    ensures PendingStandalone(RESPONDED.log, CALL.id)
  {
    hide Inv, PendingStandalone, InsertAll;
    StartedInv();
    RespondCommitsIff(STARTED, READER, 0, RESPONSE);
    assert !HasIntent(STARTED.log, 1, CALL.id);
    NextPreserves(STARTED, RESPONDING);
    Queue.ProposableIffAlone(STARTED, READER, 0, RESPONSE, 0);
    InsertAllAppends(STARTED.log, Batch(RESPONSE, IntentsFor([CALL])));
  }

  lemma {:induction false} ProposalCommits()
    ensures Propose(RESPONDED, READER, 0, CALL.id, STATE, 1).Commit?
    ensures Inv(PROPOSED) && Live(PROPOSED, READER) && PROPOSED.checkpoints == [ROW]
  {
    ResponseCommits();
    hide Inv, PendingStandalone, RESPONDED;
    ProposeCommitsIff(RESPONDED, READER, 0, CALL.id, STATE, 1);
    NextPreserves(RESPONDED, PROPOSING);
  }

  // ---------- Methods, one after the other ----------

  lemma {:induction false} MethodRuns(s: Sys, lease: Lease, c: nat, first: Act, work: Work, rowId: int)
    requires c in s.ctxs && Live(s.run, lease)
    requires Step(s, first) == s.(ctxs := s.ctxs[c := IdleCtx(lease).(main := Wants(work))])
    ensures Steps(s, [first] + UnderGate(c, rowId)) ==
      Sys(AfterOp(s.run, WorkOp(work, lease, 0, rowId)),
          s.ctxs[c := IdleCtx(lease).(main := AfterWork(s.run, IdleCtx(lease).(main := Renewed(work), gate := ByMain), 0, rowId))],
          s.calls)
  {
    hide Step, Steps, AfterWork, WorkOp, AfterOp, UnderGate, Live;
    StepsSplit(s, [first], UnderGate(c, rowId));
    OneStep(s, first);
    GateRuns(Step(s, first), c, lease, work, rowId);
    assert Step(s, first).ctxs[c := IdleCtx(lease)] == s.ctxs[c := IdleCtx(lease)];
  }

  function One(run: Run, main: Main): Sys {
    Sys(run, map[0 := IdleCtx(READER).(main := main)], [])
  }

  lemma {:induction false} Responds()
    ensures Steps(One(STARTED, Idle), [CallMethod(0, Respond(RESPONSE))] + UnderGate(0, 0)) == One(RESPONDED, Idle)
  {
    hide Steps, UnderGate, Next;
    MethodRuns(One(STARTED, Idle), READER, 0, CallMethod(0, Respond(RESPONSE)), Respond(RESPONSE), 0);
  }

  lemma {:induction false} Proposes()
    ensures Steps(One(RESPONDED, Idle), [CallMethod(0, ProposeState(CALL.id, STATE))] + UnderGate(0, 1))
      == One(PROPOSED, Wants(Fetch(1)))
  {
    ProposalCommits();
    ResponseCommits();
    hide Steps, UnderGate, Next, RESPONDED, Propose, Inv;
    MethodRuns(One(RESPONDED, Idle), READER, 0, CallMethod(0, ProposeState(CALL.id, STATE)), ProposeState(CALL.id, STATE), 1);
  }

  /** The fetching half of verify_checkpoint. */
  lemma {:induction false} FetchRuns(run: Run, lease: Lease)
    requires Live(run, lease) && run.checkpoints == [ROW]
    ensures AfterOp(run, WorkOp(Fetch(1), lease, 0, 0)) == run
    ensures AfterWork(run, IdleCtx(lease).(main := Renewed(Fetch(1)), gate := ByMain), 0, 0) == Verifying(1, STATE)
  {
    assert GetCandidate(run, lease, 0, 1) == Ok(ROW);
    hide GetCandidate, Next;
  }

  lemma {:induction false} VerifierFailed(run: Run)
    ensures Step(One(run, Verifying(1, STATE)), VerifierReturns(0, None)) == One(run, Idle)
  {
  }

  lemma {:induction false} VerifierFails()
    ensures Steps(One(PROPOSED, Wants(Fetch(1))), UnderGate(0, 0) + [VerifierReturns(0, None)]) == One(PROPOSED, Idle)
  {
    hide Steps, Step, UnderGate, PROPOSED, AfterWork, WorkOp, AfterOp, Inv, Live;
    ProposalCommits();
    FetchRuns(PROPOSED, READER);
    var s := One(PROPOSED, Wants(Fetch(1)));
    StepsSplit(s, UnderGate(0, 0), [VerifierReturns(0, None)]);
    GateRuns(s, 0, READER, Fetch(1), 0);
    assert Steps(s, UnderGate(0, 0)) == One(PROPOSED, Verifying(1, STATE));
    OneStep(One(PROPOSED, Verifying(1, STATE)), VerifierReturns(0, None));
    VerifierFailed(PROPOSED);
  }

  lemma {:induction false} ThreeSplit(s: Sys, a: seq<Act>, b: seq<Act>, c: seq<Act>)
    ensures Steps(s, a + b + c) == Steps(Steps(Steps(s, a), b), c)
  {
    StepsSplit(s, a + b, c);
    StepsSplit(s, a, b);
  }

  lemma {:induction false} FirstRead()
    ensures Steps(Init(0), BeforeRead()) == One(PROPOSED, Idle)
  {
    hide Steps, UnderGate, Step, PROPOSED, RESPONDED;
    var opening, responding := [Act.Open(0, 1, 0, TTL_MS, false), Begin(0, 0)], [CallMethod(0, Respond(RESPONSE))] + UnderGate(0, 0);
    var proposing := [CallMethod(0, ProposeState(CALL.id, STATE))] + UnderGate(0, 1);
    ThreeSplit(Init(0), opening, responding, proposing);
    StepsSplit(Init(0), opening + responding + proposing, UnderGate(0, 0) + [VerifierReturns(0, None)]);
    ContextOpens();
    Responds();
    Proposes();
    VerifierFails();
  }

  // ---------- The second context ----------

  const RECOVERED := PROPOSED.(owner := Some(2), epoch := 2, expires := Some(TTL_MS))

  const ACCEPTING := DoDecide(VERIFIER, 0, 1, true, VerificationValue(PASSED))

  function Two(run: Run, main: Main, calls: seq<VerifierCall>): Sys {
    Sys(run, map[0 := IdleCtx(READER), 1 := IdleCtx(VERIFIER).(main := main)], calls)
  }

  const CALLS := [VerifierCall(STATE, PASSED)]

  lemma {:induction false} Recovers()
    ensures Steps(One(PROPOSED, Idle), [Act.Open(1, 2, 0, TTL_MS, true), Begin(1, 0)]) == Two(RECOVERED, Idle, [])
    ensures Inv(RECOVERED) && Live(RECOVERED, VERIFIER) && RECOVERED.checkpoints == [ROW]
  {
    ProposalCommits();
    hide Inv, PROPOSED;
    NextPreserves(PROPOSED, DoClaim(2, 0, TTL_MS, true));
    var created := Sys(RECOVERED, map[0 := IdleCtx(READER), 1 := Ctx(VERIFIER, TTL_MS, Main.Claimed, Off, Free, false, false)], []);
    TwoSteps(One(PROPOSED, Idle), Act.Open(1, 2, 0, TTL_MS, true), Begin(1, 0));
    assert Step(One(PROPOSED, Idle), Act.Open(1, 2, 0, TTL_MS, true)) == created;
    assert SetStatus(RECOVERED, VERIFIER, 0, Running) == Commit(RECOVERED, ());
    assert Step(created, Begin(1, 0)) == Two(RECOVERED, Idle, []);
  }

  lemma {:induction false} VerifyCalled(run: Run)
    ensures Step(Two(run, Idle, []), CallVerify(1, ROW)) == Two(run, Wants(Fetch(1)), [])
  {
  }

  lemma {:induction false} Fetches()
    ensures Steps(Two(RECOVERED, Idle, []), [CallVerify(1, ROW)] + UnderGate(1, 0)) == Two(RECOVERED, Verifying(1, STATE), [])
  {
    hide Steps, Step, UnderGate, RECOVERED, AfterWork, WorkOp, AfterOp, Inv, Live;
    Recovers();
    FetchRuns(RECOVERED, VERIFIER);
    VerifyCalled(RECOVERED);
    var s := Two(RECOVERED, Idle, []);
    assert s.(ctxs := s.ctxs[1 := IdleCtx(VERIFIER).(main := Wants(Fetch(1)))]) == Two(RECOVERED, Wants(Fetch(1)), []);
    MethodRuns(s, VERIFIER, 1, CallVerify(1, ROW), Fetch(1), 0);
  }

  lemma {:induction false} VerifierPassed(run: Run)
    ensures Step(Two(run, Verifying(1, STATE), []), VerifierReturns(1, Some(PASSED))) == Two(run, Wants(Judge(1, STATE, PASSED)), CALLS)
  {
  }

  lemma {:induction false} JudgeRuns(run: Run)
    requires Decide(run, VERIFIER, 0, 1, true, VerificationValue(PASSED)).Commit?
    ensures AfterOp(run, WorkOp(Judge(1, STATE, PASSED), VERIFIER, 0, 0))
      == Decide(run, VERIFIER, 0, 1, true, VerificationValue(PASSED)).run
    ensures AfterWork(run, IdleCtx(VERIFIER).(main := Renewed(Judge(1, STATE, PASSED)), gate := ByMain), 0, 0) == Idle
  {
    hide Decide;
  }

  lemma {:induction false} Accepts()
    ensures Decide(RECOVERED, VERIFIER, 0, 1, true, VerificationValue(PASSED)).Commit?
    ensures Steps(Two(RECOVERED, Verifying(1, STATE), []), [VerifierReturns(1, Some(PASSED))] + UnderGate(1, 0))
      == Two(Decide(RECOVERED, VERIFIER, 0, 1, true, VerificationValue(PASSED)).run, Idle, CALLS)
  {
    Recovers();
    hide Inv, RECOVERED, Decide, Steps, Step, UnderGate, AfterWork, WorkOp, AfterOp;
    assert RECOVERED.checkpoints[0].id == 1;
    DecideCommitsIff(RECOVERED, VERIFIER, 0, 1, true, VerificationValue(PASSED));
    hide Live;
    var s, judging := Two(RECOVERED, Verifying(1, STATE), []), Two(RECOVERED, Wants(Judge(1, STATE, PASSED)), CALLS);
    StepsSplit(s, [VerifierReturns(1, Some(PASSED))], UnderGate(1, 0));
    OneStep(s, VerifierReturns(1, Some(PASSED)));
    VerifierPassed(RECOVERED);
    GateRuns(judging, 1, VERIFIER, Judge(1, STATE, PASSED), 0);
    JudgeRuns(RECOVERED);
  }

  lemma {:induction false} SecondRead()
    ensures Decide(RECOVERED, VERIFIER, 0, 1, true, VerificationValue(PASSED)).Commit?
    ensures Steps(One(PROPOSED, Idle), BetweenReads())
      == Two(Decide(RECOVERED, VERIFIER, 0, 1, true, VerificationValue(PASSED)).run, Idle, CALLS)
  {
    hide Steps, Step, UnderGate, Decide, PROPOSED, RECOVERED, Inv;
    ThreeSplit(One(PROPOSED, Idle), [Act.Open(1, 2, 0, TTL_MS, true), Begin(1, 0)], [CallVerify(1, ROW)] + UnderGate(1, 0),
               [VerifierReturns(1, Some(PASSED))] + UnderGate(1, 0));
    Recovers();
    Fetches();
    Accepts();
  }

  lemma {:induction false} NotYetAccepted()
    ensures LatestWith([ROW], Accepted) == None
  {
    assert [ROW][..0] == [];
    var rest: Option<Checkpoint> := LatestWith([], Accepted);
    assert rest == None;
  }

  /** The first context is free to call state() at both reads, and only the second
      acts in between. The read answers no checkpoint, although one is accepted
      by then, together with events that contain its acceptance; the caller has
      been fenced. */
  lemma {:induction false} AcceptanceBetweenReads()
    ensures var s := Steps(Init(0), BeforeRead());
      var t := Steps(s, BetweenReads());
      var returned := LatestWith(s.run.checkpoints, Accepted);
      && 0 in s.ctxs && s.ctxs[0].main.Idle? && !s.ctxs[0].failed
      && 0 in t.ctxs && t.ctxs[0] == s.ctxs[0]
      && (forall i :: 0 <= i < |BetweenReads()| ==> BetweenReads()[i].c == 1)
      && returned == None && LatestWith(t.run.checkpoints, Accepted).Some?
      && AcceptedEventIn(EventsAfter(t.run.log, AfterSeq(returned)))
      && s.ctxs[0].lease.epoch < t.run.epoch
  {
    FirstRead();
    SecondRead();
    Recovers();
    Accepts();
    ProposalCommits();
    NotYetAccepted();
    hide Steps, Step, Inv, PROPOSED, RECOVERED, Decide, LatestWith, EventsAfter, AcceptedEventIn;
    SplitReadMissesAcceptance(RECOVERED, VERIFIER, 0, 1, VerificationValue(PASSED));
    NextExtends(RECOVERED, ACCEPTING);
  }
}

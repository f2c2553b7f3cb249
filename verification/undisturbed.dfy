/** What the steps of one context come to when nobody else steps in between: what
    the methods of AgentContext do. */
module Undisturbed {
  import opened Types
  import opened Runs
  import opened Contexts
  import Effects
  import Agent

  /** Where a method that had to give up leaves its context. */
  function GivenUp(ctx: Ctx): Ctx {
    ctx.(main := Idle, gate := Free)
  }

  /** A method under the gate is one renewal and then its transaction, with the
      renewed lease; after a heartbeat failure or a failed renewal it is nothing. */
  lemma {:induction false} MethodUnderGate(s: Sys, c: nat, work: Work, renewedAt: int, at: int, rowId: int)
    requires c in s.ctxs && s.ctxs[c].main == Wants(work) && s.ctxs[c].gate.Free?
    ensures var ctx, after := s.ctxs[c], Steps(s, [TakeGate(c), CheckHealth(c), RenewForWork(c, renewedAt), Execute(c, at, rowId)]);
      var out := Renew(s.run, ctx.lease, renewedAt, ctx.ttlMs);
      && after.calls == s.calls && after.ctxs.Keys == s.ctxs.Keys
      && (forall d :: d in s.ctxs && d != c ==> after.ctxs[d] == s.ctxs[d])
      && if ctx.failed || out.Abort? then
           after.run == s.run && after.ctxs[c] == GivenUp(ctx)
         else
           && after.run == AfterOp(out.run, WorkOp(work, out.value, at, rowId))
           && after.ctxs[c].lease == out.value && after.ctxs[c].gate.Free? && !after.ctxs[c].failed
           && after.ctxs[c].main == AfterWork(out.run, ctx.(main := Renewed(work), lease := out.value, gate := ByMain), at, rowId)
  {
    FourSteps(s, TakeGate(c), CheckHealth(c), RenewForWork(c, renewedAt), Execute(c, at, rowId));
    hide AfterWork, WorkOp, Claim, ClaimSelected, Release, SetStatus, AppendResponse, RecordResult, Propose, Decide, AppendEvent;
    RenewIsNext(s.run, s.ctxs[c].lease, renewedAt, s.ctxs[c].ttlMs);
    hide Next, Renew;
  }

  lemma {:induction false} RenewIsNext(run: Run, lease: Lease, now: int, ttlMs: int)
    ensures Next(run, DoRenew(lease, now, ttlMs)) == Renew(run, lease, now, ttlMs).After(run)
    ensures Renew(run, lease, now, ttlMs).Abort? ==> Next(run, DoRenew(lease, now, ttlMs)) == run
  {
  }

  /** So it is a method of AgentContext, whatever its transaction is. */
  lemma {:induction false} MethodIsUnderLease<T>(s: Sys, c: nat, work: Work, renewedAt: int, at: int, rowId: int,
                                                 tx: (Run, Lease) -> Outcome<T>)
    requires c in s.ctxs && s.ctxs[c].main == Wants(work) && s.ctxs[c].gate.Free?
    requires var out := Renew(s.run, s.ctxs[c].lease, renewedAt, s.ctxs[c].ttlMs);
      out.Commit? ==> tx(out.run, out.value).After(out.run) == AfterOp(out.run, WorkOp(work, out.value, at, rowId))
    ensures var after := Steps(s, [TakeGate(c), CheckHealth(c), RenewForWork(c, renewedAt), Execute(c, at, rowId)]);
      var done := Agent.UnderLease(s.run, s.ctxs[c].lease, s.ctxs[c].failed, renewedAt, s.ctxs[c].ttlMs, tx);
      c in after.ctxs && after.run == done.0 && after.ctxs[c].lease == done.1
  {
    hide Step, Steps, AfterWork, WorkOp, AfterOp, Renew;
    MethodUnderGate(s, c, work, renewedAt, at, rowId);
  }

  /** One turn of the heartbeat: it renews and sleeps again, or ends with the flag
      raised. */
  lemma {:induction false} HeartbeatTurn(s: Sys, c: nat, now: int)
    requires c in s.ctxs && s.ctxs[c].beat.Sleeping? && s.ctxs[c].gate.Free?
    ensures var ctx, after := s.ctxs[c], Steps(s, [BeatWakes(c), BeatTakesGate(c), BeatRenews(c, now)]);
      var renewed := Renew(s.run, ctx.lease, now, ctx.ttlMs);
      && c in after.ctxs && after.run == renewed.After(s.run)
      && after.ctxs[c] == if renewed.Commit? then ctx else ctx.(beat := Ended(false), failed := true)
  {
    ThreeSteps(s, BeatWakes(c), BeatTakesGate(c), BeatRenews(c, now));
    RenewIsNext(s.run, s.ctxs[c].lease, now, s.ctxs[c].ttlMs);
    hide Next, Renew, AfterWork;
  }

  lemma {:induction false} ThreeSteps(s: Sys, a: Act, b: Act, c: Act)
    ensures Steps(s, [a, b, c]) == Step(Step(Step(s, a), b), c)
  {
    hide Step;
    TwoSteps(s, a, b);
    assert [a, b, c][..2] == [a, b];
  }

  /** Stopping the heartbeat and seeing whether it had failed. */
  lemma {:induction false} Stops(s: Sys, c: nat, complete: bool)
    requires c in s.ctxs && s.ctxs[c].main.Idle? && s.ctxs[c].beat.Sleeping?
    ensures var ctx := s.ctxs[c];
      Steps(s, [End(c, complete), BeatStops(c), Join(c), CheckStopped(c)]) ==
        s.(ctxs := s.ctxs[c := ctx.(stop := true, beat := Ended(false),
                                    main := if complete && !ctx.failed then Completing else Releasing)])
  {
    FourSteps(s, End(c, complete), BeatStops(c), Join(c), CheckStopped(c));
    hide Next, AfterWork;
    var ctx := s.ctxs[c];
    var t1 := s.(ctxs := s.ctxs[c := ctx.(main := Stopping(complete), stop := true)]);
    var t2 := s.(ctxs := s.ctxs[c := ctx.(main := Stopping(complete), stop := true, beat := Ended(false))]);
    var t3 := s.(ctxs := s.ctxs[c := ctx.(main := Stopped(complete), stop := true, beat := Ended(false))]);
    assert Step(s, End(c, complete)) == t1;
    assert Step(t1, BeatStops(c)) == t2;
    assert Step(t2, Join(c)) == t3;
  }

  lemma {:induction false} Releases(s: Sys, c: nat)
    requires c in s.ctxs && s.ctxs[c].main.Releasing?
    ensures Steps(s, [ReleaseLease(c)]).run == Release(s.run, s.ctxs[c].lease).After(s.run)
    ensures c in Steps(s, [ReleaseLease(c)]).ctxs && Steps(s, [ReleaseLease(c)]).ctxs[c].main.Gone?
  {
    OneStep(s, ReleaseLease(c));
    hide AfterWork;
  }

  /** close() releases the lease, whether or not the heartbeat had failed. */
  lemma {:induction false} CloseReleases(s: Sys, c: nat)
    requires c in s.ctxs && s.ctxs[c].main.Idle? && s.ctxs[c].beat.Sleeping?
    ensures var after := Steps(s, [End(c, false), BeatStops(c), Join(c), CheckStopped(c)] + [ReleaseLease(c)]);
      after.run == Release(s.run, s.ctxs[c].lease).After(s.run) && c in after.ctxs && after.ctxs[c].main.Gone?
  {
    hide Step, Steps, Release;
    var stops := [End(c, false), BeatStops(c), Join(c), CheckStopped(c)];
    StepsSplit(s, stops, [ReleaseLease(c)]);
    Stops(s, c, false);
    Releases(Steps(s, stops), c);
  }

  /** When complete() gets through. */
  predicate Completes(run: Run, ctx: Ctx, renewedAt: int, at: int) {
    && !ctx.failed && Effects.LiveLease(run, ctx.lease, renewedAt) && run.status == Running
    && Effects.Fits(renewedAt + ctx.ttlMs) && at < renewedAt + ctx.ttlMs
  }

  function Completed(run: Run): Run {
    run.(status := Status.Completed, owner := None, expires := None,
         log := run.log + [Event(StateTransition, Transition(Running, Status.Completed), None)])
  }

  lemma {:induction false} Tries(s: Sys, c: nat, renewedAt: int, at: int)
    requires c in s.ctxs && s.ctxs[c].main.Completing? && !s.ctxs[c].failed
    ensures var ctx, after := s.ctxs[c], Steps(s, [RenewToComplete(c, renewedAt), WriteCompletion(c, at)]);
      && c in after.ctxs
      && (Completes(s.run, ctx, renewedAt, at) ==> after.run == Completed(s.run) && after.ctxs[c].main.Gone?)
      && (!Completes(s.run, ctx, renewedAt, at) ==>
            && after.ctxs[c].main.Releasing?
            && Release(after.run, after.ctxs[c].lease).After(after.run) == Release(s.run, ctx.lease).After(s.run))
  {
    TwoSteps(s, RenewToComplete(c, renewedAt), WriteCompletion(c, at));
    Effects.RenewCommitsIff(s.run, s.ctxs[c].lease, renewedAt, s.ctxs[c].ttlMs);
    hide AfterWork;
  }

  /** complete() completes the run exactly when the heartbeat has not failed, the
      lease can be renewed and is still good at the last reading, and the run is
      running; otherwise it does what close() does. */
  lemma {:induction false} CompleteCompletes(s: Sys, c: nat, renewedAt: int, at: int)
    requires c in s.ctxs && s.ctxs[c].main.Idle? && s.ctxs[c].beat.Sleeping?
    ensures var after := Steps(s, [End(c, true), BeatStops(c), Join(c), CheckStopped(c)]
                                  + [RenewToComplete(c, renewedAt), WriteCompletion(c, at)] + [ReleaseLease(c)]);
      after.run == if Completes(s.run, s.ctxs[c], renewedAt, at) then Completed(s.run)
                   else Release(s.run, s.ctxs[c].lease).After(s.run)
  {
    hide Step, Steps, Release, Completed;
    var stops := [End(c, true), BeatStops(c), Join(c), CheckStopped(c)];
    var tries := [RenewToComplete(c, renewedAt), WriteCompletion(c, at)];
    StepsSplit(s, stops + tries, [ReleaseLease(c)]);
    StepsSplit(s, stops, tries);
    Stops(s, c, true);
    var stopped := Steps(s, stops);
    if s.ctxs[c].failed {
      NothingToTry(stopped, c, renewedAt, at);
      Releases(stopped, c);
    } else {
      Tries(stopped, c, renewedAt, at);
      if Completes(s.run, s.ctxs[c], renewedAt, at) {
        GoneStays(Steps(stopped, tries), c);
      } else {
        Releases(Steps(stopped, tries), c);
      }
    }
  }

  lemma {:induction false} NothingToTry(s: Sys, c: nat, renewedAt: int, at: int)
    requires c in s.ctxs && s.ctxs[c].main.Releasing?
    ensures Steps(s, [RenewToComplete(c, renewedAt), WriteCompletion(c, at)]) == s
  {
    TwoSteps(s, RenewToComplete(c, renewedAt), WriteCompletion(c, at));
    hide Next, AfterWork;
    assert s.ctxs[c := s.ctxs[c]] == s.ctxs;
  }

  lemma {:induction false} GoneStays(s: Sys, c: nat)
    requires c in s.ctxs && s.ctxs[c].main.Gone?
    ensures Steps(s, [ReleaseLease(c)]).run == s.run
  {
    OneStep(s, ReleaseLease(c));
    hide Next, AfterWork;
  }
}

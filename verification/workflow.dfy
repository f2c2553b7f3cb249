/** Durable named steps and sleeps: src/workflow.rs over the step and timer rows,
    undisturbed in WorkflowContext, and interleaved in the machine after it for
    steps and in module Timers for sleeps. */
module Workflow {
  import opened Types
  import opened Clock
  import opened Steps
  import opened Store
  import Timers

  /** No wake time is more than a longest delay after an instant. Timers that
      were all asked for by then are so; Timers.AskedBefore. */
  predicate StoredBy(timers: map<(Uuid, string), TimerRow>, at: int) {
    forall key :: key in timers ==> timers[key].wakeAt - MillisAt(at) <= I64_MAX
  }

  class WorkflowContext {
    const db: Database
    const runId: Uuid
    const owner: Uuid

    constructor (db: Database, runId: Uuid, owner: Uuid)
      ensures this.db == db && this.runId == runId && this.owner == owner
    {
      this.db, this.runId, this.owner := db, runId, owner;
    }

    function StepRowOf(name: string): Option<StepRow>
      reads this, db`steps
    {
      if (runId, name) in db.steps then Some(db.steps[(runId, name)]) else None
    }

    /** Releases every running step of the run and nothing else. */
    method Recover() returns (r: Result<()>)
      requires StepsOk(db.steps)
      modifies db`steps
      ensures StepsOk(db.steps)
      ensures r.Ok? <==> runId in db.runs
      ensures r.Ok? ==> forall name :: (runId, name) in old(db.steps) ==>
        (runId, name) in db.steps && db.steps[(runId, name)] == ReleasedRow(old(db.steps)[(runId, name)])
      ensures forall key :: key in old(db.steps) && key.0 != runId ==> key in db.steps && db.steps[key] == old(db.steps)[key]
    {
      r := db.RecoverSteps(runId);
    }

    /** operation is what the closure returns, should it be run. A completed step
        answers its stored result without running it; a running one refuses; and
        a value is returned only once it is the stored result. */
    method Step(name: string, operation: Result<Value>) returns (r: Result<Value>, ran: bool)
      requires StepsOk(db.steps)
      modifies db`steps
      ensures StepsOk(db.steps)
      ensures r.Ok? ==> StepRowOf(name).Some? && StepRowOf(name).value.result == Some(r.value)
      ensures ran <==> runId in db.runs && (old(StepRowOf(name)).None? || old(StepRowOf(name)).value.status.StepPending?)
      ensures ran ==> r == operation
      ensures ran && operation.Err? ==> StepRowOf(name) == Some(ClaimRow(old(StepRowOf(name)), owner).0)
      ensures !ran ==> db.steps == old(db.steps)
      ensures runId in db.runs && old(StepRowOf(name)).Some? && old(StepRowOf(name)).value.result.Some? ==>
        r == Ok(old(StepRowOf(name)).value.result.value)
      ensures runId !in db.runs ==> r == Err(NotFound)
      ensures runId in db.runs && old(StepRowOf(name)).Some? && old(StepRowOf(name)).value.status.StepRunning? ==>
        r == Err(InvalidState)
      ensures ran ==> StepRowOf(name) == Some(
        if operation.Ok? then StepRow(StepCompleted, Some(owner), Some(operation.value))
        else StepRow(StepRunning, Some(owner), None))
    {
      ran := false;
      var claimed := db.ClaimStep(runId, name, owner);
      if claimed.Err? {
        return Err(claimed.error), false;
      }
      if claimed.value.Some? {
        return Ok(claimed.value.value), false;
      }
      ran := true;
      if operation.Err? {
        return operation, true;
      }
      var completed := db.CompleteStep(runId, name, owner, operation.value);
      r := if completed.Ok? then operation else Err(InvalidState);
    }

    /** scheduled and read are the instants of the two clock readings; the sleep
        takes at least the remaining time, and late nanoseconds more. With a
        clock that does not go back it never returns before the wake time,
        whoever stored that; else exactly when the wake time is within reach. */
    method Sleep(name: string, delay: Duration, scheduled: int, read: int, late: nat) returns (r: Result<()>, woke: int)
      modifies db`timers
      ensures r.Ok? <==>
        && runId in db.runs && DurationToMillis(delay).Ok?
        && I64_MIN <= MillisAt(scheduled) + DurationToMillis(delay).value <= I64_MAX
      ensures r.Ok? ==> (runId, name) in db.timers && db.timers[(runId, name)].completed
      ensures forall key :: key in old(db.timers) && key != (runId, name) ==>
        key in db.timers && db.timers[key] == old(db.timers)[key]
      ensures r.Ok? && (runId, name) in old(db.timers) ==>
        db.timers[(runId, name)].wakeAt == old(db.timers)[(runId, name)].wakeAt
      ensures r.Ok? && (runId, name) !in old(db.timers) ==>
        DurationToMillis(delay).Ok? && db.timers[(runId, name)].wakeAt == MillisAt(scheduled) + DurationToMillis(delay).value
      ensures StoredBy(old(db.timers), scheduled) ==> StoredBy(db.timers, scheduled)
      ensures r.Ok? && StoredBy(old(db.timers), scheduled) && scheduled <= read ==>
        woke >= db.timers[(runId, name)].wakeAt * NANOS_PER_MILLI
      ensures r.Ok? ==> woke == Timers.Resumes(db.timers[(runId, name)].wakeAt, read) + late
      ensures r.Ok? && late == 0 ==>
        var wakeAt := db.timers[(runId, name)].wakeAt;
        woke >= wakeAt * NANOS_PER_MILLI <==> wakeAt - MillisAt(read) <= I64_MAX
      ensures r.Err? ==> db.timers == old(db.timers)
    {
      woke := read + late;
      var wakeAt := db.ScheduleTimer(runId, name, delay, MillisAt(scheduled));
      if wakeAt.Err? {
        return Err(wakeAt.error), woke;
      }
      var remaining := Timers.SaturatingSub(wakeAt.value, MillisAt(read));
      Timers.RemainingIsEnough(wakeAt.value, read);
      if remaining > 0 {
        woke := read + remaining * NANOS_PER_MILLI + late;
      }
      db.CompleteTimer(runId, name);
      assert StoredBy(old(db.timers), scheduled) ==> StoredBy(db.timers, scheduled);
      if StoredBy(db.timers, scheduled) && scheduled <= read {
        StoredLater(db.timers, scheduled, read);
      }
      r := Ok(());
    }
  }

  /** Later readings of a clock that does not go back keep this. */
  lemma {:induction false} StoredLater(timers: map<(Uuid, string), TimerRow>, at: int, later: int)
    requires StoredBy(timers, at) && at <= later
    ensures StoredBy(timers, later)
  {
    assert MillisAt(at) <= MillisAt(later);
  }

  // ---------- One step, many callers ----------

  /** Where a call of step() is. */
  datatype Phase =
    | Calling
    | InClosure
    | Completing(value: Value)
    | Returned(value: Value)
    | Refused

  datatype Caller = Caller(owner: Uuid, phase: Phase)

  /** One step row, every call of step() ever made on it by any contexts, how
      often closures started and recovery released the step, the call that made
      the latest claim and the call whose value was stored. */
  datatype StepSys = StepSys(row: Option<StepRow>, callers: map<nat, Caller>, starts: nat, releases: nat,
                             claimer: Option<nat>, winner: Option<nat>)

  datatype StepAct =
    | StepCall(k: nat, owner: Uuid)
    | ClaimAct(k: nat)
    | ClosureReturns(k: nat, value: Option<Value>)
    | CompleteAct(k: nat)
    | RecoverAct

  const FRESH_STEP := StepSys(None, map[], 0, 0, None, None)

  function Act(s: StepSys, a: StepAct): StepSys {
    match a
    case StepCall(k, owner) => if k in s.callers then s else s.(callers := s.callers[k := Caller(owner, Calling)])
    case ClaimAct(k) =>
      if k !in s.callers || !s.callers[k].phase.Calling? then s
      else
        var (row, answer) := ClaimRow(s.row, s.callers[k].owner);
        (match answer
         case Cached(value) => s.(row := Some(row), callers := s.callers[k := s.callers[k].(phase := Returned(value))])
         case Busy => s.(row := Some(row), callers := s.callers[k := s.callers[k].(phase := Refused)])
         case Granted =>
           s.(row := Some(row), callers := s.callers[k := s.callers[k].(phase := InClosure)],
              starts := s.starts + 1, claimer := Some(k)))
    case ClosureReturns(k, value) =>
      if k !in s.callers || !s.callers[k].phase.InClosure? then s
      else
        var phase := if value.Some? then Completing(value.value) else Refused;
        s.(callers := s.callers[k := s.callers[k].(phase := phase)])
    case CompleteAct(k) =>
      if k !in s.callers || !s.callers[k].phase.Completing? then s
      else
        var caller := s.callers[k];
        if HoldsClaim(s.row, caller.owner) then
          s.(row := Some(CompletedRow(s.row.value, caller.phase.value)),
             callers := s.callers[k := caller.(phase := Returned(caller.phase.value))], winner := Some(k))
        else s.(callers := s.callers[k := caller.(phase := Refused)])
    case RecoverAct =>
      if s.row.None? then s
      else s.(row := Some(ReleasedRow(s.row.value)),
              releases := if s.row.value.status.StepRunning? then s.releases + 1 else s.releases)
  }

  function ActAll(s: StepSys, acts: seq<StepAct>): StepSys {
    if acts == [] then s else Act(ActAll(s, acts[..|acts| - 1]), acts[|acts| - 1])
  }

  function Taken(row: Option<StepRow>): nat {
    if row.Some? && !row.value.status.StepPending? then 1 else 0
  }

  ghost predicate StepInv(s: StepSys) {
    && (s.row.Some? ==> StepOk(s.row.value))
    && s.starts == s.releases + Taken(s.row)
    && (forall k :: k in s.callers && s.callers[k].phase.Returned? ==>
          s.row.Some? && s.row.value.result == Some(s.callers[k].phase.value))
    && ClaimerOk(s) && WinnerOk(s)
  }

  /** A taken step has the owner of its latest claim. */
  predicate ClaimerOk(s: StepSys) {
    && (s.claimer.Some? ==> s.claimer.value in s.callers)
    && (Taken(s.row) == 1 ==> s.claimer.Some? && s.row.value.owner == Some(s.callers[s.claimer.value].owner))
  }

  /** A stored result came from a closure of the context that claimed last. */
  predicate WinnerOk(s: StepSys) {
    && (s.winner.Some? <==> s.row.Some? && s.row.value.status.StepCompleted?)
    && (s.winner.Some? ==>
          && s.winner.value in s.callers && s.claimer.Some? && s.claimer.value in s.callers
          && s.callers[s.winner.value].owner == s.callers[s.claimer.value].owner
          && s.callers[s.winner.value].phase.Returned?
          && s.row.value.result == Some(s.callers[s.winner.value].phase.value))
  }

  lemma {:induction false} ActKeeps(s: StepSys, a: StepAct)
    requires StepInv(s)
    ensures StepInv(Act(s, a))
  {
  }

  lemma {:induction false} ActAllInv(acts: seq<StepAct>)
    ensures StepInv(ActAll(FRESH_STEP, acts))
  {
    if acts != [] {
      ActAllInv(acts[..|acts| - 1]);
      ActKeeps(ActAll(FRESH_STEP, acts[..|acts| - 1]), acts[|acts| - 1]);
    }
  }

  /** For any interleaving of step() and recover() by any contexts, stale closures
      included: all successful calls return the one stored value; closures start
      once per recovery release plus once if the step is running or completed;
      and without recovery at most once. */
  lemma {:induction false} StepMemoised(acts: seq<StepAct>)
    ensures var s := ActAll(FRESH_STEP, acts);
      && (forall k, l :: k in s.callers && l in s.callers && s.callers[k].phase.Returned? && s.callers[l].phase.Returned? ==>
            s.callers[k].phase.value == s.callers[l].phase.value)
      && s.starts == s.releases + Taken(s.row)
      && ((forall i :: 0 <= i < |acts| ==> !acts[i].RecoverAct?) ==> s.starts <= 1)
  {
    ActAllInv(acts);
    if forall i :: 0 <= i < |acts| ==> !acts[i].RecoverAct? {
      NoRecoveryNoRelease(acts);
    }
  }

  lemma {:induction false} NoRecoveryNoRelease(acts: seq<StepAct>)
    requires forall i :: 0 <= i < |acts| ==> !acts[i].RecoverAct?
    ensures ActAll(FRESH_STEP, acts).releases == 0
  {
    if acts != [] {
      NoRecoveryNoRelease(acts[..|acts| - 1]);
    }
  }

  /** A stored result is never replaced, whoever completes or recovers. */
  lemma {:induction false} ResultNeverChanges(s: StepSys, acts: seq<StepAct>)
    requires StepInv(s) && s.row.Some? && s.row.value.status.StepCompleted?
    ensures StepInv(ActAll(s, acts)) && ActAll(s, acts).row == s.row
  {
    if acts != [] {
      ResultNeverChanges(s, acts[..|acts| - 1]);
      ActKeeps(ActAll(s, acts[..|acts| - 1]), acts[|acts| - 1]);
    }
  }

  /** A claim is granted only on a new or pending step: the catch-all arm of
      claim_step never meets a completed step without a result. */
  lemma {:induction false} GrantedMeansPending(acts: seq<StepAct>, owner: Uuid)
    ensures var row := ActAll(FRESH_STEP, acts).row;
      ClaimRow(row, owner).1.Granted? <==> row.None? || row.value.status.StepPending?
  {
    ActAllInv(acts);
  }

  // ---------- Whose result is stored ----------

  /** The stored result is the value that a closure of the context of the latest
      claim returned. */
  lemma {:induction false} ResultOfLatestContext(acts: seq<StepAct>)
    requires ActAll(FRESH_STEP, acts).row.Some? && ActAll(FRESH_STEP, acts).row.value.status.StepCompleted?
    ensures WinnerOk(ActAll(FRESH_STEP, acts)) && ActAll(FRESH_STEP, acts).winner.Some?
  {
    ActAllInv(acts);
  }

  /** The act stores the value of call k. */
  predicate Stores(s: StepSys, k: nat) {
    s.winner.None? && Act(s, CompleteAct(k)).winner == Some(k)
  }

  /** A closure that has returned is stored exactly when the step is running and
      its own context made the latest claim. So a closure that is not of the
      latest claim still wins exactly when its context claimed the step again
      and that claim is still running; another context's claim fences it. */
  lemma {:induction false} StaleClosureWinsIff(acts: seq<StepAct>, k: nat)
    requires k in ActAll(FRESH_STEP, acts).callers && ActAll(FRESH_STEP, acts).callers[k].phase.Completing?
    ensures var s := ActAll(FRESH_STEP, acts);
      Stores(s, k) <==>
        && s.row.Some? && s.row.value.status.StepRunning?
        && s.claimer.Some? && s.claimer.value in s.callers
        && s.callers[s.claimer.value].owner == s.callers[k].owner
  {
    ActAllInv(acts);
  }

  predicate OwnersDiffer(s: StepSys) {
    forall k, l :: k in s.callers && l in s.callers && k != l ==> s.callers[k].owner != s.callers[l].owner
  }

  /** With one call per context, a stored result is that of the latest claim. */
  lemma {:induction false} OneCallEach(acts: seq<StepAct>)
    requires OwnersDiffer(ActAll(FRESH_STEP, acts))
    ensures ActAll(FRESH_STEP, acts).winner.Some? ==> ActAll(FRESH_STEP, acts).winner == ActAll(FRESH_STEP, acts).claimer
  {
    ActAllInv(acts);
  }

  /** A context whose step is released while its closure runs, and which claims
      the step again: its first closure can still be the one that is stored. */
  function StaleRun(value: Value): seq<StepAct> {
    [StepCall(0, 7), ClaimAct(0), RecoverAct, StepCall(1, 7), ClaimAct(1), ClosureReturns(0, Some(value)), CompleteAct(0)]
  }

  lemma {:induction false} StaleClosureCanWin(value: Value)
    ensures var s := ActAll(FRESH_STEP, StaleRun(value));
      s.claimer == Some(1) && s.winner == Some(0) && s.row.Some? && s.row.value.result == Some(value)
  {
    var acts := StaleRun(value);
    var s2 := Act(Act(FRESH_STEP, acts[0]), acts[1]);
    var s4 := Act(Act(s2, acts[2]), acts[3]);
    var s5 := Act(s4, acts[4]);
    assert s5.callers[0].phase.InClosure? && s5.claimer == Some(1) && s5.row == Some(StepRow(StepRunning, Some(7), None));
    var s7 := Act(Act(s5, acts[5]), acts[6]);
    hide Act;
    assert acts[..6][..5] == acts[..5] && acts[..5][..4] == acts[..4] && acts[..4][..3] == acts[..3];
    assert acts[..3][..2] == acts[..2] && acts[..2][..1] == acts[..1] && acts[..1][..0] == [];
    assert ActAll(FRESH_STEP, acts[..1]) == Act(FRESH_STEP, acts[0]);
    assert ActAll(FRESH_STEP, acts[..2]) == s2;
    assert ActAll(FRESH_STEP, acts[..3]) == Act(s2, acts[2]);
    assert ActAll(FRESH_STEP, acts[..4]) == s4;
    assert ActAll(FRESH_STEP, acts[..5]) == s5;
    assert ActAll(FRESH_STEP, acts[..6]) == Act(s5, acts[5]);
    assert ActAll(FRESH_STEP, acts) == s7;
  }
}

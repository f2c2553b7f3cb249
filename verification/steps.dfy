/** What the step and timer transactions of src/db.rs do to one row. */
module Steps {
  import opened Types

  datatype StepStatus = StepPending | StepRunning | StepCompleted

  datatype StepRow = StepRow(status: StepStatus, owner: Option<Uuid>, result: Option<Value>)

  datatype TimerRow = TimerRow(wakeAt: int, completed: bool)

  /** The answer of claim_step: a persisted result, a refusal because the step is
      running, or leave to run the closure. */
  datatype Claimed = Cached(result: Value) | Busy | Granted

  /** claim_step. The last arm updates the row only if it is still pending, and
      grants the claim all the same. */
  function ClaimRow(row: Option<StepRow>, owner: Uuid): (StepRow, Claimed) {
    match row
    case None => (StepRow(StepRunning, Some(owner), None), Granted)
    case Some(step) =>
      if step.status.StepCompleted? && step.result.Some? then (step, Cached(step.result.value))
      else if step.status.StepRunning? then (step, Busy)
      else if step.status.StepPending? then (step.(status := StepRunning, owner := Some(owner)), Granted)
      else (step, Granted)
  }

  /** The WHERE clause of complete_step. */
  predicate HoldsClaim(row: Option<StepRow>, owner: Uuid) {
    row.Some? && row.value.status.StepRunning? && row.value.owner == Some(owner)
  }

  function CompletedRow(row: StepRow, result: Value): StepRow {
    row.(status := StepCompleted, result := Some(result))
  }

  /** recover_steps, on one row. */
  function ReleasedRow(row: StepRow): StepRow {
    if row.status.StepRunning? then row.(status := StepPending, owner := None) else row
  }

  /** A result is stored exactly when the step is completed, and a pending step
      has no owner. */
  predicate StepOk(row: StepRow) {
    (row.status.StepCompleted? <==> row.result.Some?) && (row.status.StepPending? <==> row.owner.None?)
  }

  predicate StepsOk(steps: map<(Uuid, string), StepRow>) {
    forall key :: key in steps ==> StepOk(steps[key])
  }

  /** schedule_timer: the first committed wake time stays. */
  function ScheduledRow(row: Option<TimerRow>, wakeAt: int): TimerRow {
    match row
    case Some(timer) => timer
    case None => TimerRow(wakeAt, false)
  }
}

/** What each transaction of src/db.rs does to the run it touches. A run is the
    agent_runs row, the run's events in sequence order (the event at index i has
    seq i) and its checkpoint rows in insertion order. */
module Runs {
  import opened Types
  import opened Keys

  datatype Event = Event(kind: EventType, payload: Payload, key: Option<Key>)

  datatype CheckpointStatus = Candidate | Accepted | Rejected

  datatype Checkpoint = Checkpoint(
    id: int,
    round: int,
    toolCallId: string,
    basedOn: int,
    decisionSeq: Option<int>,
    status: CheckpointStatus,
    state: CheckpointState,
    verification: Option<Value>)

  datatype Run = Run(
    status: Status,
    createdAt: int,
    owner: Option<Uuid>,
    epoch: int,
    expires: Option<int>,
    log: seq<Event>,
    checkpoints: seq<Checkpoint>)

  datatype Lease = Lease(runId: Uuid, owner: Uuid, epoch: int, expires: int)

  /** COMMIT with the new run, or ROLLBACK. */
  datatype Outcome<+T> = Commit(run: Run, value: T) | Abort(error: Error)
  {
    function After(before: Run): Run {
      if Commit? then run else before
    }

    function Reply(): Result<T> {
      if Commit? then Ok(value) else Err(error)
    }
  }

  const CHECKPOINT_TOOL := "submit_checkpoint"

  function NewRun(createdAt: int): Run {
    Run(Pending, createdAt, None, 0, None, [], [])
  }

  // ---------- Leases ----------

  /** The row that validate_run_lease looks for. */
  predicate LeaseValid(run: Run, lease: Lease, now: int) {
    && run.owner == Some(lease.owner)
    && run.epoch == lease.epoch
    && run.expires.Some?
    && run.expires.value > now
  }

  /** The lease that a claim of this run has handed out last. */
  predicate GrantedTo(run: Run, lease: Lease) {
    run.owner == Some(lease.owner) && run.epoch == lease.epoch && run.expires == Some(lease.expires)
  }

  /** validate_writable_run_lease */
  predicate Writable(run: Run, lease: Lease, now: int) {
    LeaseValid(run, lease, now) && run.status == Running
  }

  predicate Terminal(status: Status) {
    status == Completed || status == Failed
  }

  /** claim_run_lease */
  function Claim(run: Run, runId: Uuid, owner: Uuid, now: int, ttlMs: int, recover: bool): Outcome<Lease> {
    if Terminal(run.status) then Abort(InvalidState)
    else
      var expires := CheckedAdd(now, ttlMs);
      if expires.None? then Abort(InvalidState)
      else if recover || run.owner.None? then
        Commit(run.(owner := Some(owner), epoch := run.epoch + 1, expires := expires),
               Lease(runId, owner, run.epoch + 1, expires.value))
      else Abort(InvalidState)
  }

  /** The WHERE clause of claim_next_recoverable_run. */
  predicate Claimable(run: Run, now: int) {
    && (run.status == Pending || run.status == Running)
    && (run.owner.None? || (run.expires.Some? && run.expires.value <= now))
  }

  /** ORDER BY created_at, id */
  predicate ComesFirst(createdA: int, a: Uuid, createdB: int, b: Uuid) {
    createdA < createdB || (createdA == createdB && a <= b)
  }

  /** claim_next_recoverable_run, once it has selected this run. */
  function ClaimSelected(run: Run, runId: Uuid, owner: Uuid, now: int, ttlMs: int): Outcome<Lease> {
    var expires := CheckedAdd(now, ttlMs);
    if expires.None? then Abort(InvalidState)
    else
      var claimed := run.(status := Running, owner := Some(owner), epoch := run.epoch + 1, expires := expires);
      var lease := Lease(runId, owner, run.epoch + 1, expires.value);
      if run.status == Pending then
        Commit(claimed.(log := run.log + [TransitionEvent(Pending, Running)]), lease)
      else
        Commit(claimed, lease)
  }

  /** renew_run_lease */
  function Renew(run: Run, lease: Lease, now: int, ttlMs: int): Outcome<Lease> {
    var expires := CheckedAdd(now, ttlMs);
    if expires.None? then Abort(InvalidState)
    else if LeaseValid(run, lease, now) && !Terminal(run.status) then
      Commit(run.(expires := expires), lease.(expires := expires.value))
    else Abort(InvalidState)
  }

  /** release_run_lease */
  function Release(run: Run, lease: Lease): Outcome<()> {
    if run.owner == Some(lease.owner) && run.epoch == lease.epoch then
      Commit(run.(owner := None, expires := None), ())
    else Abort(InvalidState)
  }

  // ---------- Events ----------

  function TransitionEvent(from: Status, to: Status): Event {
    Event(StateTransition, Transition(from, to), None)
  }

  /** The partial unique index on (run_id, idempotency_key). Keys stand for
      their text; Keys.SameText shows that comparing them is comparing it. */
  predicate KeyTaken(log: seq<Event>, key: Option<Key>) {
    key.Some? && exists i :: 0 <= i < |log| && log[i].key == key
  }

  /** insert_event at the next sequence number. */
  function Insert(log: seq<Event>, event: Event): Result<seq<Event>> {
    if KeyTaken(log, event.key) then Err(Db) else Ok(log + [event])
  }

  function InsertAll(log: seq<Event>, events: seq<Event>): Result<seq<Event>>
    decreases |events|
  {
    if events == [] then Ok(log)
    else
      match Insert(log, events[0])
      case Ok(longer) => InsertAll(longer, events[1..])
      case Err(error) => Err(error)
  }

  lemma {:induction false} NoKey(log: seq<Event>)
    ensures !KeyTaken(log, None)
  {
  }

  lemma {:induction false} InsertTwo(log: seq<Event>, first: Event, second: Event)
    ensures InsertAll(log, [first, second]) ==
      if KeyTaken(log, first.key) || KeyTaken(log + [first], second.key) then Err(Db) else Ok(log + [first] + [second])
  {
    assert [first, second][1..] == [second] && [second][1..] == [];
    assert InsertAll(log + [first], [second]) ==
      if KeyTaken(log + [first], second.key) then Err(Db) else InsertAll(log + [first] + [second], []);
  }

  /** update_run_status_with_lease */
  function SetStatus(run: Run, lease: Lease, now: int, status: Status): Outcome<()> {
    if !LeaseValid(run, lease, now) then Abort(InvalidState)
    else if run.status == status then Commit(run, ())
    else Commit(run.(status := status, log := run.log + [TransitionEvent(run.status, status)]), ())
  }

  /** complete_run_with_lease */
  function Complete(run: Run, lease: Lease, now: int): Outcome<()> {
    if !Writable(run, lease, now) then Abort(InvalidState)
    else Commit(run.(status := Completed, owner := None, expires := None,
                     log := run.log + [TransitionEvent(Running, Completed)]), ())
  }

  /** The events of one append_llm_call_with_tool_intents_with_lease batch. */
  function Batch(response: Payload, intents: seq<(Payload, string)>): seq<Event> {
    [Event(LlmCall, response, None)] + IntentEvents(intents)
  }

  function IntentEvents(intents: seq<(Payload, string)>): seq<Event> {
    seq(|intents|, i requires 0 <= i < |intents| => Event(ToolCall, intents[i].0, Some(IntentKey(intents[i].1))))
  }

  /** append_llm_call_with_tool_intents_with_lease */
  function AppendResponse(run: Run, lease: Lease, now: int, response: Payload, intents: seq<(Payload, string)>): Outcome<()> {
    if !Writable(run, lease, now) then Abort(InvalidState)
    else
      match InsertAll(run.log, Batch(response, intents))
      case Ok(log) => Commit(run.(log := log), ())
      case Err(error) => Abort(error)
  }

  /** The intents AgentContext::record_response builds for its tool calls. */
  function IntentsFor(calls: seq<Call>): seq<(Payload, string)> {
    seq(|calls|, i requires 0 <= i < |calls| =>
      (Intent(calls[i].id, calls[i].name, calls[i].args, Some(|calls|)), calls[i].id))
  }

  /** append_event_with_lease */
  function AppendEvent(run: Run, lease: Lease, now: int, event: Event): Outcome<Event> {
    if !Writable(run, lease, now) then Abort(InvalidState)
    else
      match Insert(run.log, event)
      case Ok(log) => Commit(run.(log := log), event)
      case Err(error) => Abort(error)
  }

  // ---------- Tool calls and results ----------

  predicate SameCall(a: Payload, b: Payload) {
    a.CallId().Some? && a.CallId() == b.CallId()
  }

  /** The NOT EXISTS subquery: no later tool_result carries the call's id. */
  predicate IsPending(log: seq<Event>, i: nat)
    requires i < |log|
  {
    && log[i].kind.ToolCall?
    && forall j :: i < j < |log| && log[j].kind.ToolResult? ==> !SameCall(log[j].payload, log[i].payload)
  }

  function PendingAmong(log: seq<Event>, n: nat): seq<Event>
    requires n <= |log|
  {
    if n == 0 then []
    else if IsPending(log, n - 1) then PendingAmong(log, n - 1) + [log[n - 1]]
    else PendingAmong(log, n - 1)
  }

  /** The rows find_pending_tool_calls_with_lease selects, in sequence order. */
  function PendingCalls(log: seq<Event>): seq<Event> {
    PendingAmong(log, |log|)
  }

  /** find_pending_tool_calls_with_lease */
  function FindPending(run: Run, lease: Lease, now: int): Result<seq<Event>> {
    if !Writable(run, lease, now) then Err(InvalidState) else Ok(PendingCalls(run.log))
  }

  /** The first event of a kind that carries a call id, or |log|. */
  function FirstOf(log: seq<Event>, kind: EventType, callId: string, from: nat := 0): (k: nat)
    requires from <= |log|
    ensures from <= k <= |log|
    ensures k < |log| ==> log[k].kind == kind && log[k].payload.CallId() == Some(callId)
    ensures forall j :: from <= j < k ==> !(log[j].kind == kind && log[j].payload.CallId() == Some(callId))
    decreases |log| - from
  {
    if from == |log| || (log[from].kind == kind && log[from].payload.CallId() == Some(callId)) then from
    else FirstOf(log, kind, callId, from + 1)
  }

  /** record_tool_result_with_lease */
  function RecordResult(run: Run, lease: Lease, now: int, callId: string, content: Value): Outcome<Event> {
    if !Writable(run, lease, now) then Abort(InvalidState)
    else
      var intent := FirstOf(run.log, ToolCall, callId);
      if intent == |run.log| then Abort(InvalidState)
      else if run.log[intent].payload.Name().None? then Abort(Db)
      else if run.log[intent].payload.Name() == Some(CHECKPOINT_TOOL) then Abort(InvalidState)
      else
        var payload := Outcome(callId, content);
        var existing := FirstOf(run.log, ToolResult, callId);
        if existing < |run.log| then
          if existing <= intent || run.log[existing].payload != payload then Abort(InvalidState)
          else Commit(run, run.log[existing])
        else
          var event := Event(ToolResult, payload, Some(ResultKey(callId)));
          match Insert(run.log, event)
          case Ok(log) => Commit(run.(log := log), event)
          case Err(error) => Abort(error)
  }

  // ---------- Checkpoints ----------

  /** A pending submit_checkpoint intent that was its response's only call. */
  predicate PendingStandalone(log: seq<Event>, callId: string) {
    exists i :: 0 <= i < |log|
      && log[i].kind.ToolCall?
      && log[i].payload.CallId() == Some(callId)
      && log[i].payload.Name() == Some(CHECKPOINT_TOOL)
      && log[i].payload.ToolCount() == 1
      && IsPending(log, i)
  }

  predicate HasCandidate(checkpoints: seq<Checkpoint>) {
    exists k :: 0 <= k < |checkpoints| && checkpoints[k].status.Candidate?
  }

  function MaxRound(checkpoints: seq<Checkpoint>): int
    requires checkpoints != []
  {
    var last := checkpoints[|checkpoints| - 1].round;
    if |checkpoints| == 1 then last
    else
      var rest := MaxRound(checkpoints[..|checkpoints| - 1]);
      if last > rest then last else rest
  }

  /** COALESCE(MAX(round), 0) + 1 */
  function NextRound(checkpoints: seq<Checkpoint>): int {
    (if checkpoints == [] then 0 else MaxRound(checkpoints)) + 1
  }

  /** UNIQUE(run_id, round) and UNIQUE(run_id, tool_call_id). */
  predicate ViolatesUnique(checkpoints: seq<Checkpoint>, round: int, toolCallId: string) {
    exists k :: 0 <= k < |checkpoints| && (checkpoints[k].round == round || checkpoints[k].toolCallId == toolCallId)
  }

  /** The checks of propose_checkpoint_with_lease: the round and the
      based_on_event_seq that the new row gets, or why there is none. */
  function Proposable(run: Run, lease: Lease, now: int, callId: string): Result<(int, int)> {
    if !Writable(run, lease, now) then Err(InvalidState)
    else if !PendingStandalone(run.log, callId) then Err(InvalidState)
    else if HasCandidate(run.checkpoints) then Err(InvalidState)
    else if ViolatesUnique(run.checkpoints, NextRound(run.checkpoints), callId) then Err(Db)
    else Ok((NextRound(run.checkpoints), |run.log| - 1))
  }

  /** propose_checkpoint_with_lease, given the row id SQLite assigns. */
  function Propose(run: Run, lease: Lease, now: int, callId: string, state: CheckpointState, id: int): Outcome<Checkpoint> {
    match Proposable(run, lease, now, callId)
    case Err(error) => Abort(error)
    case Ok((round, basedOn)) =>
      var row := Checkpoint(id, round, callId, basedOn, None, Candidate, state, None);
      (match Insert(run.log, ProposedEvent(row))
       case Ok(log) => Commit(run.(log := log, checkpoints := run.checkpoints + [row]), row)
       case Err(error) => Abort(error))
  }

  function ProposedEvent(row: Checkpoint): Event {
    Event(CheckpointProposed, Proposal(row.id, row.round, row.state), Some(ProposedKey(row.id)))
  }

  /** The candidate row with an id, or |checkpoints|. */
  function CandidateIndex(checkpoints: seq<Checkpoint>, id: int, from: nat := 0): (k: nat)
    requires from <= |checkpoints|
    ensures from <= k <= |checkpoints|
    ensures k < |checkpoints| ==> checkpoints[k].id == id && checkpoints[k].status.Candidate?
    ensures forall j :: from <= j < k ==> !(checkpoints[j].id == id && checkpoints[j].status.Candidate?)
    decreases |checkpoints| - from
  {
    if from == |checkpoints| || (checkpoints[from].id == id && checkpoints[from].status.Candidate?) then from
    else CandidateIndex(checkpoints, id, from + 1)
  }

  /** get_checkpoint_candidate_with_lease */
  function GetCandidate(run: Run, lease: Lease, now: int, id: int): Result<Checkpoint> {
    var k := CandidateIndex(run.checkpoints, id);
    if !Writable(run, lease, now) || k == |run.checkpoints| then Err(InvalidState) else Ok(run.checkpoints[k])
  }

  function DecidedRow(row: Checkpoint, seqNo: int, accepted: bool, verification: Value): Checkpoint {
    row.(status := if accepted then Accepted else Rejected,
         verification := Some(verification),
         decisionSeq := Some(seqNo))
  }

  function DecisionEvent(id: int, accepted: bool, verification: Value): Event {
    Event(if accepted then CheckpointAccepted else CheckpointRejected,
          Decision(id, verification), Some(DecidedKey(id, accepted)))
  }

  function OutcomeEvent(row: Checkpoint, accepted: bool, verification: Value): Event {
    Event(ToolResult, Outcome(row.toolCallId, DecisionDocument(accepted, verification)), Some(OutcomeKey(row.id)))
  }

  /** decide_checkpoint_with_lease */
  function Decide(run: Run, lease: Lease, now: int, id: int, accepted: bool, verification: Value): Outcome<Checkpoint> {
    if !Writable(run, lease, now) then Abort(InvalidState)
    else
      var k := CandidateIndex(run.checkpoints, id);
      if k == |run.checkpoints| then Abort(InvalidState)
      else
        var row := DecidedRow(run.checkpoints[k], |run.log|, accepted, verification);
        var events := [DecisionEvent(id, accepted, verification), OutcomeEvent(row, accepted, verification)];
        match InsertAll(run.log, events)
        case Ok(log) => Commit(run.(log := log, checkpoints := run.checkpoints[k := row]), row)
        case Err(error) => Abort(error)
  }

  /** The row with a status and the highest round (ORDER BY round DESC LIMIT 1). */
  function LatestWith(checkpoints: seq<Checkpoint>, status: CheckpointStatus): (r: Option<Checkpoint>)
    ensures r.Some? ==> r.value in checkpoints && r.value.status == status
    ensures forall k :: 0 <= k < |checkpoints| && checkpoints[k].status == status ==>
      r.Some? && checkpoints[k].round <= r.value.round
  {
    if checkpoints == [] then None
    else
      var last := checkpoints[|checkpoints| - 1];
      var rest := LatestWith(checkpoints[..|checkpoints| - 1], status);
      if last.status == status && (rest.None? || rest.value.round <= last.round) then Some(last) else rest
  }

  /** get_pending_checkpoint_with_lease */
  function GetPending(run: Run, lease: Lease, now: int): Result<Option<Checkpoint>> {
    if !Writable(run, lease, now) then Err(InvalidState) else Ok(LatestWith(run.checkpoints, Candidate))
  }

  // ---------- Any transaction, by anyone, at any clock reading ----------

  datatype Op =
    | DoClaim(owner: Uuid, now: int, ttlMs: int, recover: bool)
    | DoClaimNext(owner: Uuid, now: int, ttlMs: int)
    | DoRenew(lease: Lease, now: int, ttlMs: int)
    | DoRelease(lease: Lease)
    | DoSetStatus(lease: Lease, now: int, status: Status)
    | DoRespond(lease: Lease, now: int, response: Payload, intents: seq<(Payload, string)>)
    | DoResult(lease: Lease, now: int, callId: string, content: Value)
    | DoPropose(lease: Lease, now: int, callId: string, state: CheckpointState, id: int)
    | DoDecide(lease: Lease, now: int, checkpoint: int, accepted: bool, verification: Value)
    | DoComplete(lease: Lease, now: int)
    | DoAppend(lease: Lease, now: int, event: Event)
  {
    predicate ByLease() {
      !DoClaim? && !DoClaimNext?
    }
  }

  /** Row ids are assigned from one table shared by all runs and only grow. */
  predicate FreshId(run: Run, id: int) {
    forall k :: 0 <= k < |run.checkpoints| ==> run.checkpoints[k].id < id
  }

  /** The run after a transaction. An aborted one leaves it as it was; a worker
      does not select a run that is not claimable, and SQLite does not assign a
      row id twice. */
  function Next(run: Run, op: Op): Run {
    match op
    case DoClaim(owner, now, ttlMs, recover) => Claim(run, 0, owner, now, ttlMs, recover).After(run)
    case DoClaimNext(owner, now, ttlMs) =>
      if Claimable(run, now) then ClaimSelected(run, 0, owner, now, ttlMs).After(run) else run
    case DoRenew(lease, now, ttlMs) => Renew(run, lease, now, ttlMs).After(run)
    case DoRelease(lease) => Release(run, lease).After(run)
    case DoSetStatus(lease, now, status) => SetStatus(run, lease, now, status).After(run)
    case DoRespond(lease, now, response, intents) => AppendResponse(run, lease, now, response, intents).After(run)
    case DoResult(lease, now, callId, content) => RecordResult(run, lease, now, callId, content).After(run)
    case DoPropose(lease, now, callId, state, id) =>
      if FreshId(run, id) then Propose(run, lease, now, callId, state, id).After(run) else run
    case DoDecide(lease, now, checkpoint, accepted, verification) =>
      Decide(run, lease, now, checkpoint, accepted, verification).After(run)
    case DoComplete(lease, now) => Complete(run, lease, now).After(run)
    case DoAppend(lease, now, event) => AppendEvent(run, lease, now, event).After(run)
  }

  function Exec(run: Run, ops: seq<Op>): Run {
    if ops == [] then run else Next(Exec(run, ops[..|ops| - 1]), ops[|ops| - 1])
  }

  /** The transactions AgentContext and ResumeWorker issue. Only the raw append
      functions and status changes other than to Running are excluded. */
  predicate AgentOp(op: Op) {
    match op
    case DoSetStatus(_, _, status) => status == Running
    case DoRespond(_, _, response, intents) => response.Response? && intents == IntentsFor(response.calls)
    case DoDecide(_, _, _, accepted, verification) =>
      verification.VerificationDocument? && verification.passed == accepted
    case DoAppend(_, _, _) => false
    case _ => true
  }

  predicate AgentOps(ops: seq<Op>) {
    forall i :: 0 <= i < |ops| ==> AgentOp(ops[i])
  }
}

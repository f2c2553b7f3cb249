/** examples/durable_agent.rs as a program that can crash between any two of its
    steps. The database and the output directory survive; everything else of the
    process is lost, and the next process recovers the run by force. */
module DurableAgent {
  import opened Types
  import opened Keys
  import opened Runs
  import opened Invariant
  import opened Queue
  import opened History
  import Effects

  const LEASE_TTL_MS := 300_000

  // ---------- What the program writes ----------

  const FILE_CALL := Call("call_1", "write_file", FileContent("hello"))

  const ARTIFACT := "call_1.json"

  const STATE := CheckpointState(["Wrote the requested file"], [], [ARTIFACT], [], ["write_file returned ok"])

  const FINAL_CALL := Call("checkpoint_1", CHECKPOINT_TOOL, StateDocument(STATE))

  const FILE_RESPONSE := Response(Document("I'll write the file."), [FILE_CALL], "tool_use")

  const FINAL_RESPONSE := Response(Document("The requested work is complete."), [FINAL_CALL], "tool_use")

  /** The JSON a write_file call leaves in its result file. */
  function Written(args: Value): Value {
    FileWritten(if args.FileContent? then Some(args.content) else None)
  }

  const FILE_RESULT := Written(FILE_CALL.args)

  function IntentEvent(call: Call): Event {
    Event(ToolCall, Intent(call.id, call.name, call.args, Some(1)), Some(IntentKey(call.id)))
  }

  function CandidateRow(id: int): Checkpoint {
    Checkpoint(id, 1, FINAL_CALL.id, 5, None, Candidate, STATE, None)
  }

  const VERDICT := VerificationDocument(true, ArtifactCheck(true))

  function AcceptedRow(id: int): Checkpoint {
    DecidedRow(CandidateRow(id), 7, true, VERDICT)
  }

  /** The ten events of a run that never crashed; id is the checkpoint's row id. */
  function TenEvents(id: int): (r: seq<Event>)
    ensures |r| == 10
  {
    [ Event(StateTransition, Transition(Pending, Running), None),
      Event(LlmCall, FILE_RESPONSE, None),
      Event(ToolCall, Intent("call_1", "write_file", FileContent("hello"), Some(1)), Some(IntentKey("call_1"))),
      Event(ToolResult, Outcome("call_1", FileWritten(Some("hello"))), Some(ResultKey("call_1"))),
      Event(LlmCall, FINAL_RESPONSE, None),
      Event(ToolCall, Intent("checkpoint_1", CHECKPOINT_TOOL, StateDocument(STATE), Some(1)), Some(IntentKey("checkpoint_1"))),
      Event(CheckpointProposed, Proposal(id, 1, STATE), Some(ProposedKey(id))),
      Event(CheckpointAccepted, Decision(id, VERDICT), Some(DecidedKey(id, true))),
      Event(ToolResult, Outcome("checkpoint_1", DecisionDocument(true, VERDICT)), Some(OutcomeKey(id))),
      Event(StateTransition, Transition(Running, Completed), None) ]
  }

  // ---------- The program ----------

  /** Where run_agent goes on after a tool result or a checkpoint decision. */
  datatype Then = ThenCalls | ThenLoop(rest: seq<Event>) | ThenRequest | ThenClose

  datatype Task =
    | StartRun
    | CheckDone
    | FindCandidate
    | FindCalls
    | Loop(calls: seq<Event>)
    | ReadFile(call: Call, andThen: Then)
    | LinkFile(call: Call, andThen: Then)
    | SaveResult(callId: string, result: Value, andThen: Then)
    | ProposeTask(callId: string, state: CheckpointState, andThen: Then)
    | FetchTask(id: int, andThen: Then)
    | VerifyTask(id: int, state: CheckpointState, andThen: Then)
    | DecideTask(id: int, verification: Verification, andThen: Then)
    | CheckResult
    | RequestFile
    | RequestCheckpoint
    | RenewLast
    | FinishRun
    | GiveUp

  /** ready: the lease has just been renewed for the task, under the gate.
      failed: the sticky flag of the heartbeat. */
  datatype Process = Process(lease: Lease, task: Task, ready: bool, failed: bool)

  /** files is the output directory, by call id; process is what a crash loses. */
  datatype World = World(run: Run, files: map<string, Value>, process: Option<Process>)

  /** Methods of AgentContext that renew the lease first. */
  predicate NeedsLease(task: Task) {
    task.FindCandidate? || task.FindCalls? || task.SaveResult? || task.ProposeTask? || task.FetchTask?
    || task.DecideTask? || task.RequestFile? || task.RequestCheckpoint?
  }

  /** The process ends: it returned, failed or was killed. */
  function Exit(w: World): World {
    w.(process := None)
  }

  function Goto(w: World, task: Task): World
    requires w.process.Some?
  {
    w.(process := Some(w.process.value.(task := task, ready := false)))
  }

  /** Commits a transaction and goes on, or exits with its error. */
  function Do<T>(w: World, out: Outcome<T>, task: Task): World
    requires w.process.Some?
  {
    if out.Commit? then Goto(w.(run := out.run), task) else Exit(w)
  }

  predicate CheckpointIsComplete(row: Checkpoint) {
    row.status.Accepted? && row.state.remaining == []
  }

  function AfterCheckpoint(w: World, row: Checkpoint, andThen: Then): World
    requires w.process.Some?
  {
    if CheckpointIsComplete(row) then Goto(w, RenewLast)
    else
      match andThen
      case ThenCalls => Goto(w, FindCalls)
      case ThenLoop(rest) => Goto(w, Loop(rest))
      case _ => Goto(w, GiveUp)
  }

  function AfterTool(w: World, andThen: Then): World
    requires w.process.Some?
  {
    match andThen
    case ThenLoop(rest) => Goto(w, Loop(rest))
    case _ => Goto(w, RequestCheckpoint)
  }

  function VerifyFile(state: CheckpointState, files: map<string, Value>): Verification {
    var found := FILE_CALL.id in files;
    Verification(found && state.remaining == [], ArtifactCheck(found))
  }

  predicate HasFileResult(events: seq<Event>) {
    exists i :: 0 <= i < |events| && events[i].kind.ToolResult? && events[i].payload.CallId() == Some(FILE_CALL.id)
  }

  /** One pass of the loop over pending calls, up to its first step. */
  function NextCall(w: World, calls: seq<Event>): World
    requires w.process.Some?
  {
    if calls == [] then Goto(w, CheckResult)
    else
      match calls[0].payload
      case Intent(id, name, args, _) =>
        if name == FILE_CALL.name then Goto(w, ReadFile(Call(id, name, args), ThenLoop(calls[1..])))
        else if name == CHECKPOINT_TOOL && calls[0].payload.ToolCount() == 1 then
          if args.StateDocument? then Goto(w, ProposeTask(id, args.state, ThenLoop(calls[1..]))) else Exit(w)
        else Goto(w, Loop(calls[1..]))
      case _ => Exit(w)
  }

  /** The next step of the process, its lease renewed if it needs that. */
  function Perform(w: World, now: int, rowId: int): World
    requires w.process.Some?
  {
    var lease, run := w.process.value.lease, w.run;
    match w.process.value.task
    case StartRun =>
      var out := SetStatus(run, lease, now, Running);
      if out.Commit? then Goto(w.(run := out.run), CheckDone) else Goto(w, GiveUp)
    case CheckDone =>
      var checkpoint := LatestWith(run.checkpoints, Accepted);
      if checkpoint.Some? && CheckpointIsComplete(checkpoint.value) then Goto(w, RenewLast) else Goto(w, FindCandidate)
    case FindCandidate =>
      (match GetPending(run, lease, now)
       case Ok(Some(row)) => Goto(w, FetchTask(row.id, ThenCalls))
       case Ok(None) => Goto(w, FindCalls)
       case Err(_) => Exit(w))
    case FindCalls =>
      (match FindPending(run, lease, now)
       case Ok(calls) => Goto(w, Loop(calls))
       case Err(_) => Exit(w))
    case Loop(calls) => NextCall(w, calls)
    case ReadFile(call, andThen) =>
      if call.id in w.files then Goto(w, SaveResult(call.id, w.files[call.id], andThen))
      else Goto(w, LinkFile(call, andThen))
    case LinkFile(call, andThen) =>
      if call.id in w.files then Goto(w, SaveResult(call.id, w.files[call.id], andThen))
      else Goto(w.(files := w.files[call.id := Written(call.args)]), SaveResult(call.id, Written(call.args), andThen))
    case SaveResult(callId, result, andThen) =>
      var out := RecordResult(run, lease, now, callId, result);
      if out.Commit? then AfterTool(w.(run := out.run), andThen) else Exit(w)
    case ProposeTask(callId, state, andThen) =>
      Do(w, Propose(run, lease, now, callId, state, rowId), FetchTask(rowId, andThen))
    case FetchTask(id, andThen) =>
      (match GetCandidate(run, lease, now, id)
       case Ok(row) => Goto(w, VerifyTask(row.id, row.state, andThen))
       case Err(_) => Exit(w))
    case VerifyTask(id, state, andThen) => Goto(w, DecideTask(id, VerifyFile(state, w.files), andThen))
    case DecideTask(id, v, andThen) =>
      var out := Decide(run, lease, now, id, v.passed, VerificationValue(v));
      if out.Commit? then AfterCheckpoint(w.(run := out.run), out.value, andThen) else Exit(w)
    case CheckResult =>
      var events := EventsAfter(run.log, AfterSeq(LatestWith(run.checkpoints, Accepted)));
      if HasFileResult(events) then Goto(w, RequestCheckpoint) else Goto(w, RequestFile)
    case RequestFile =>
      Do(w, AppendResponse(run, lease, now, FILE_RESPONSE, IntentsFor([FILE_CALL])), ReadFile(FILE_CALL, ThenRequest))
    case RequestCheckpoint =>
      Do(w, AppendResponse(run, lease, now, FINAL_RESPONSE, IntentsFor([FINAL_CALL])),
         ProposeTask(FINAL_CALL.id, STATE, ThenClose))
    case RenewLast =>
      if w.process.value.failed then Goto(w, GiveUp)
      else
        (match Renew(run, lease, now, LEASE_TTL_MS)
         case Commit(renewed, live) => World(renewed, w.files, Some(Process(live, FinishRun, false, false)))
         case Abort(_) => Goto(w, GiveUp))
    case FinishRun =>
      var out := Complete(run, lease, now);
      if out.Commit? then Exit(w.(run := out.run)) else Goto(w, GiveUp)
    case GiveUp => Exit(w.(run := Release(run, lease).After(run)))
  }

  datatype Move =
    | Launch(owner: Uuid, launchedAt: int, recover: bool)
    | Advance(now: int, rowId: int)
    | Beat(beatAt: int)
    | Crash

  /** The heartbeat runs from the start of the context until it is completed or
      closed, and waits for the gate. */
  predicate Beating(p: Process) {
    !p.failed && !p.ready && !p.task.StartRun? && !p.task.FinishRun? && !p.task.GiveUp?
  }

  /** Launch stands for open() and, after a crash, force_recover(). */
  function Step(w: World, m: Move): World {
    match m
    case Crash => Exit(w)
    case Launch(owner, now, recover) =>
      if w.process.Some? then w
      else
        (match Claim(w.run, 0, owner, now, LEASE_TTL_MS, recover)
         case Commit(run, lease) => World(run, w.files, Some(Process(lease, StartRun, false, false)))
         case Abort(_) => w)
    case Beat(now) =>
      if w.process.None? || !Beating(w.process.value) then w
      else
        (match Renew(w.run, w.process.value.lease, now, LEASE_TTL_MS)
         case Commit(run, _) => w.(run := run)
         case Abort(_) => w.(process := Some(w.process.value.(failed := true))))
    case Advance(now, rowId) =>
      if w.process.None? || !FreshId(w.run, rowId) then w
      else if NeedsLease(w.process.value.task) && !w.process.value.ready then
        if w.process.value.failed then Exit(w)
        else
          (match Renew(w.run, w.process.value.lease, now, LEASE_TTL_MS)
           case Commit(run, lease) => World(run, w.files, Some(Process(lease, w.process.value.task, true, false)))
           case Abort(_) => Exit(w))
      else Perform(w, now, rowId)
  }

  function StepAll(w: World, moves: seq<Move>): World {
    if moves == [] then w else Step(StepAll(w, moves[..|moves| - 1]), moves[|moves| - 1])
  }

  /** The run has been created; the directory is empty. */
  function Created(createdAt: int): World {
    World(NewRun(createdAt), map[], None)
  }

  // ---------- The only logs the program can leave behind ----------

  /** Transactions commit whole: these are the lengths a crash can leave. */
  predicate Boundary(n: nat) {
    n == 0 || n == 1 || n == 3 || n == 4 || n == 6 || n == 7 || n == 9 || n == 10
  }

  function RowId(run: Run): int {
    if run.checkpoints == [] then 0 else run.checkpoints[0].id
  }

  function RowsAt(n: nat, id: int): seq<Checkpoint> {
    if n < 7 then [] else if n == 7 then [CandidateRow(id)] else [AcceptedRow(id)]
  }

  function StatusAt(n: nat): Status {
    if n == 0 then Pending else if n == 10 then Completed else Running
  }

  predicate RunAt(run: Run, n: nat, id: int) {
    && Boundary(n)
    && run.log == TenEvents(id)[..n]
    && run.status == StatusAt(n)
    && run.checkpoints == RowsAt(n, id)
  }

  /** call_1.json is the only file, with one possible content, and it is there
      before the result that quotes it. */
  predicate FilesAt(files: map<string, Value>, n: nat) {
    && files.Keys <= {FILE_CALL.id}
    && (n >= 4 ==> FILE_CALL.id in files)
    && (FILE_CALL.id in files ==> files[FILE_CALL.id] == FILE_RESULT)
  }

  predicate FileThen(andThen: Then) {
    andThen == ThenLoop([]) || andThen == ThenRequest
  }

  /** Where a process can be when the log has n events. */
  predicate TaskAt(task: Task, n: nat, id: int, files: map<string, Value>) {
    match task
    case StartRun => n < 10
    case CheckDone => 0 < n < 10
    case FindCandidate => 0 < n < 9
    case FindCalls => n == 1 || n == 3 || n == 4 || n == 6
    case Loop(calls) =>
      if n == 3 || n == 6 then calls == [TenEvents(id)[n - 1]] else (n == 1 || n == 4) && calls == []
    case ReadFile(call, andThen) => n == 3 && call == FILE_CALL && FileThen(andThen)
    case LinkFile(call, andThen) => n == 3 && call == FILE_CALL && FileThen(andThen)
    case SaveResult(callId, result, andThen) =>
      n == 3 && callId == FILE_CALL.id && result == FILE_RESULT && callId in files && FileThen(andThen)
    case ProposeTask(callId, state, andThen) => n == 6 && callId == FINAL_CALL.id && state == STATE
    case FetchTask(row, andThen) => n == 7 && row == id
    case VerifyTask(row, state, andThen) => n == 7 && row == id && state == STATE
    case DecideTask(row, v, andThen) => n == 7 && row == id && VerificationValue(v) == VERDICT
    case CheckResult => n == 1 || n == 4
    case RequestFile => n == 1
    case RequestCheckpoint => n == 4
    case RenewLast => n == 9
    case FinishRun => n == 9
    case GiveUp => n < 10
  }

  predicate Sound(w: World) {
    var n, id := |w.run.log|, RowId(w.run);
    && RunAt(w.run, n, id)
    && (n == 10 ==> w.run.expires.None?)
    && FilesAt(w.files, n)
    && (w.process.Some? ==> TaskAt(w.process.value.task, n, id, w.files))
  }

  // ---------- What the transactions do at each boundary ----------

  lemma {:induction false} TenKeys(id: int)
    ensures forall i, j :: 0 <= i < j < 10 && TenEvents(id)[i].key.Some? ==> TenEvents(id)[i].key != TenEvents(id)[j].key
  {
    assert |FILE_CALL.id| != |FINAL_CALL.id|;
  }

  /** The next event, or the next two, can always be inserted. */
  lemma {:induction false} InsertNext(id: int, n: nat, m: nat)
    requires n <= m <= 10
    ensures InsertAll(TenEvents(id)[..n], TenEvents(id)[n..m]) == Ok(TenEvents(id)[..m])
    ensures m == n + 1 ==> Insert(TenEvents(id)[..n], TenEvents(id)[n]) == Ok(TenEvents(id)[..m])
  {
    var ten := TenEvents(id);
    hide TenEvents;
    TenKeys(id);
    InsertAllCommits(ten[..n], ten[n..m]);
    InsertAllAppends(ten[..n], ten[n..m]);
    assert ten[..n] + ten[n..m] == ten[..m];
    if m == n + 1 {
      assert !KeyTaken(ten[..n], ten[n..m][0].key);
      assert ten[..n] + [ten[n]] == ten[..m];
    }
  }

  lemma {:induction false} BatchOf(response: Payload, call: Call)
    requires response.Response? && response.calls == [call]
    ensures Batch(response, IntentsFor([call])) == [Event(LlmCall, response, None), IntentEvent(call)]
  {
  }

  /** The queue of open calls at each boundary before the proposal. */
  lemma {:induction false} CallsAt(id: int, n: nat)
    requires Boundary(n) && n < 7
    ensures PendingCalls(TenEvents(id)[..n]) == if n == 3 || n == 6 then [TenEvents(id)[n - 1]] else []
  {
    PendingIsOpen(TenEvents(id)[..n]);
    OpenAt(id, n);
  }

  lemma {:induction false} CallsAmongTen(id: int, i: nat)
    requires i < 6
    ensures TenEvents(id)[i].kind.ToolCall? <==> i == 2 || i == 5
    ensures TenEvents(id)[i].kind.ToolResult? <==> i == 3
    ensures i == 2 || i == 3 ==> TenEvents(id)[i].payload.CallId() == Some(FILE_CALL.id)
  {
  }

  lemma {:induction false} OnlyCallTaken(call: Event, callId: string)
    requires call.payload.CallId() == Some(callId)
    ensures WithoutCall([call], callId) == []
  {
    assert [call][..0] == [];
  }

  lemma {:induction false} OpenAt(id: int, n: nat)
    requires n < 7
    ensures Open(TenEvents(id)[..n]) == if n == 3 then [TenEvents(id)[2]] else if n == 6 then [TenEvents(id)[5]] else []
  {
    if n > 0 {
      OpenAt(id, n - 1);
      hide Open, WithoutCall, TenEvents;
      var ten := TenEvents(id);
      var queue, e := Open(ten[..n - 1]), ten[n - 1];
      assert ten[..n] == ten[..n - 1] + [e];
      OpenAppend(ten[..n - 1], e);
      CallsAmongTen(id, n - 1);
      if n == 4 {
        CallsAmongTen(id, 2);
        OnlyCallTaken(ten[2], FILE_CALL.id);
      } else if e.kind.ToolCall? {
        assert queue + [e] == [e];
      }
    }
  }

  lemma {:induction false} FileCallAt(id: int, n: nat)
    requires n == 3 || n == 4
    ensures var log := TenEvents(id)[..n];
      && FirstOf(log, ToolCall, FILE_CALL.id) == 2
      && FirstOf(log, ToolResult, FILE_CALL.id) == 3
  {
    var log := TenEvents(id)[..n];
    hide FirstOf;
    assert log[0].kind.StateTransition? && log[1].kind.LlmCall? && log[2] == IntentEvent(FILE_CALL);
    assert n == 4 ==> log[3].kind.ToolResult? && log[3].payload.CallId() == Some(FILE_CALL.id);
  }

  lemma {:induction false} FinalCallPending(id: int)
    ensures PendingStandalone(TenEvents(id)[..6], FINAL_CALL.id)
  {
    var log := TenEvents(id)[..6];
    assert log[5] == IntentEvent(FINAL_CALL) && IsPending(log, 5);
  }

  /** The run at a boundary, its lease columns free. */
  lemma {:induction false} RespondAt(run: Run, n: nat, id: int, lease: Lease, now: int, response: Payload, call: Call)
    requires RunAt(run, n, id) && Writable(run, lease, now)
    requires (n == 1 && response == FILE_RESPONSE && call == FILE_CALL)
          || (n == 4 && response == FINAL_RESPONSE && call == FINAL_CALL)
    ensures var out := AppendResponse(run, lease, now, response, IntentsFor([call]));
      out.Commit? && out.run == run.(log := TenEvents(id)[..n + 2])
  {
    BatchOf(response, call);
    assert TenEvents(id)[n..n + 2] == [TenEvents(id)[n], TenEvents(id)[n + 1]];
    InsertNext(id, n, n + 2);
  }

  lemma {:induction false} SaveAt(run: Run, id: int, lease: Lease, now: int)
    requires RunAt(run, 3, id) && Writable(run, lease, now)
    ensures var out := RecordResult(run, lease, now, FILE_CALL.id, FILE_RESULT);
      out.Commit? && out.run == run.(log := TenEvents(id)[..4])
  {
    FileCallAt(id, 3);
    InsertNext(id, 3, 4);
    assert run.log[2] == IntentEvent(FILE_CALL);
    assert |FILE_CALL.name| != |CHECKPOINT_TOOL|;
  }

  lemma {:induction false} ProposeAt(run: Run, id: int, lease: Lease, now: int, rowId: int)
    requires RunAt(run, 6, id) && Writable(run, lease, now)
    ensures var out := Propose(run, lease, now, FINAL_CALL.id, STATE, rowId);
      && out.Commit? && out.value == CandidateRow(rowId)
      && out.run == run.(log := TenEvents(rowId)[..7], checkpoints := [CandidateRow(rowId)])
  {
    FinalCallPending(id);
    assert TenEvents(id)[..6] == TenEvents(rowId)[..6];
    InsertNext(rowId, 6, 7);
    assert TenEvents(rowId)[6] == ProposedEvent(CandidateRow(rowId));
  }

  lemma {:induction false} DecideAt(run: Run, id: int, lease: Lease, now: int)
    requires RunAt(run, 7, id) && Writable(run, lease, now)
    ensures var out := Decide(run, lease, now, id, true, VERDICT);
      && out.Commit? && out.value == AcceptedRow(id)
      && out.run == run.(log := TenEvents(id)[..9], checkpoints := [AcceptedRow(id)])
  {
    assert CandidateIndex(run.checkpoints, id) == 0;
    assert TenEvents(id)[7..9] == [DecisionEvent(id, true, VERDICT), OutcomeEvent(AcceptedRow(id), true, VERDICT)];
    InsertNext(id, 7, 9);
    assert [CandidateRow(id)][0 := AcceptedRow(id)] == [AcceptedRow(id)];
  }

  lemma {:induction false} LatestOfOne(row: Checkpoint, status: CheckpointStatus)
    ensures LatestWith([row], status) == if row.status == status then Some(row) else None
  {
    assert [row][..0] == [];
    var rest: Option<Checkpoint> := LatestWith([], status);
    assert rest == None;
  }

  lemma {:induction false} LatestAt(n: nat, id: int)
    requires Boundary(n)
    ensures LatestWith(RowsAt(n, id), Accepted) == if n < 9 then None else Some(AcceptedRow(id))
    ensures LatestWith(RowsAt(n, id), Candidate) == if n == 7 then Some(CandidateRow(id)) else None
  {
    if n < 7 {
      assert RowsAt(n, id) == [];
    } else {
      var row := RowsAt(n, id)[0];
      LatestOfOne(row, Accepted);
      LatestOfOne(row, Candidate);
      assert RowsAt(n, id) == [row];
    }
  }

  lemma {:induction false} ResultAt(run: Run, n: nat, id: int)
    requires RunAt(run, n, id) && (n == 1 || n == 4)
    ensures HasFileResult(EventsAfter(run.log, AfterSeq(LatestWith(run.checkpoints, Accepted)))) <==> n == 4
  {
    LatestAt(n, id);
    if n == 4 {
      assert run.log[3] == TenEvents(id)[3];
    }
  }

  // ---------- For any checkpoint state ----------

  /** The program's verifier accepts exactly a state that leaves nothing to do,
      with the file in place, whatever the candidate; and what it accepts it then
      takes as complete. */
  lemma {:induction false} AcceptedIsComplete(run: Run, lease: Lease, now: int, row: Checkpoint, files: map<string, Value>)
    requires Inv(run) && row in run.checkpoints && row.status.Candidate? && Writable(run, lease, now)
    ensures var v := VerifyFile(row.state, files);
      var out := Decide(run, lease, now, row.id, v.passed, VerificationValue(v));
      && out.Commit? && v.evidence == ArtifactCheck(FILE_CALL.id in files)
      && (out.value.status.Accepted? <==> FILE_CALL.id in files && |row.state.remaining| == 0)
      && (CheckpointIsComplete(out.value) <==> out.value.status.Accepted?)
  {
    var v := VerifyFile(row.state, files);
    var k :| 0 <= k < |run.checkpoints| && run.checkpoints[k] == row;
    CandidatePending(run, k);
    DecideCommitsIff(run, lease, now, row.id, v.passed, VerificationValue(v));
    Effects.DecisionEffect(run, lease, now, row.id, v.passed, VerificationValue(v));
    hide Inv, Decide, Effects.DecisionLogged;
  }

  /** A checkpoint that some other verifier accepted with work left is not taken
      as complete. */
  lemma {:induction false} WorkLeftIsNotComplete(row: Checkpoint)
    requires row.state.remaining != []
    ensures !CheckpointIsComplete(row)
  {
  }

  // ---------- Progress ----------

  /** The process holds the run's lease, and the lease has not expired. */
  predicate Live(w: World, now: int) {
    && w.process.Some? && !w.process.value.task.GiveUp? && !w.process.value.failed
    && LeaseValid(w.run, w.process.value.lease, now)
    && CheckedAdd(now, LEASE_TTL_MS).Some?
  }

  function TaskRank(task: Task): nat {
    match task
    case StartRun => 15
    case CheckDone => 14
    case FindCandidate => 13
    case FindCalls => 12
    case Loop(calls) => if calls == [] then 7 else 11
    case ReadFile(_, _) => 10
    case LinkFile(_, _) => 9
    case SaveResult(_, _, _) => 8
    case CheckResult => 6
    case RequestFile => 5
    case RequestCheckpoint => 5
    case ProposeTask(_, _, _) => 4
    case FetchTask(_, _) => 3
    case VerifyTask(_, _, _) => 2
    case DecideTask(_, _, _) => 1
    case RenewLast => 1
    case FinishRun => 0
    case GiveUp => 0
  }

  /** What is left to do: the events still missing from the log come first, so
      a crash and a new start never undo progress. */
  function Rank(w: World): int
    requires w.process.Some?
  {
    (10 - |w.run.log|) * 40 + 2 * TaskRank(w.process.value.task) + if w.process.value.ready then 0 else 1
  }

  predicate HoldsLease(w: World) {
    && w.process.Some? && !w.process.value.failed
    && w.run.owner == Some(w.process.value.lease.owner) && w.run.epoch == w.process.value.lease.epoch
    && w.run.expires.Some?
  }

  predicate Nearer(before: World, now: int, after: World)
    requires before.process.Some?
  {
    after.run.status == Completed
    || (HoldsLease(after) && !after.process.value.task.GiveUp? && Rank(after) < Rank(before)
        && (after.run.expires == before.run.expires || after.run.expires == Some(now + LEASE_TTL_MS)))
  }

  /** One step of the process: it stays on the way of the crash-free run, and
      with a live lease it gets nearer the end. */
  predicate GoodStep(w: World, now: int, after: World)
    requires w.process.Some?
  {
    Sound(after) && w.run.log <= after.run.log && (Live(w, now) ==> Nearer(w, now, after))
  }

  lemma {:induction false} SoundAt(w: World, n: nat, id: int)
    requires RunAt(w.run, n, id) && FilesAt(w.files, n) && (n == 10 ==> w.run.expires.None?)
    requires w.process.Some? ==> TaskAt(w.process.value.task, n, id, w.files)
    ensures Sound(w) && |w.run.log| == n
  {
    assert n < 7 ==> TenEvents(id)[..n] == TenEvents(0)[..n];
    assert 0 < n < 7 ==> TenEvents(id)[n - 1] == TenEvents(0)[n - 1];
  }

  lemma {:induction false} ReadingStep(w: World, now: int, rowId: int)
    requires Sound(w) && w.process.Some?
    requires w.process.value.task.CheckDone? || w.process.value.task.FindCandidate? || w.process.value.task.FindCalls?
    ensures GoodStep(w, now, Perform(w, now, rowId))
  {
    hide TenEvents, PendingCalls, LatestWith, SetStatus, AppendResponse, RecordResult, Propose, Decide, Renew, Release, Complete;
    var n, id := |w.run.log|, RowId(w.run);
    LatestAt(n, id);
    if n < 7 {
      CallsAt(id, n);
    }
    SoundAt(Perform(w, now, rowId), n, id);
  }

  lemma {:induction false} StartStep(w: World, now: int, rowId: int)
    requires Sound(w) && w.process.Some? && w.process.value.task.StartRun?
    ensures GoodStep(w, now, Perform(w, now, rowId))
  {
    var n, id := |w.run.log|, RowId(w.run);
    FirstEvent(id);
    hide TenEvents, AppendResponse, RecordResult, Propose, Decide, Renew, Release, Complete;
    if n == 0 && LeaseValid(w.run, w.process.value.lease, now) {
      SoundAt(Perform(w, now, rowId), 1, id);
    } else {
      SoundAt(Perform(w, now, rowId), n, id);
    }
  }

  lemma {:induction false} FirstEvent(id: int)
    ensures TenEvents(id)[..0] + [START] == TenEvents(id)[..1]
  {
  }

  /** The first step for each call the program itself records. */
  lemma {:induction false} NextCallIs(w: World)
    requires w.process.Some?
    ensures NextCall(w, []) == Goto(w, CheckResult)
    ensures NextCall(w, [IntentEvent(FILE_CALL)]) == Goto(w, ReadFile(FILE_CALL, ThenLoop([])))
    ensures NextCall(w, [IntentEvent(FINAL_CALL)]) == Goto(w, ProposeTask(FINAL_CALL.id, STATE, ThenLoop([])))
  {
    assert |FILE_CALL.name| != |CHECKPOINT_TOOL|;
    assert [IntentEvent(FILE_CALL)][1..] == [] && [IntentEvent(FINAL_CALL)][1..] == [];
  }

  /** A step that stays at its boundary and changes nothing but the task. */
  lemma {:induction false} GotoStep(w: World, now: int, task: Task)
    requires Sound(w) && w.process.Some? && TaskAt(task, |w.run.log|, RowId(w.run), w.files)
    requires TaskRank(task) < TaskRank(w.process.value.task) && !task.GiveUp?
    ensures GoodStep(w, now, Goto(w, task))
  {
    hide TenEvents, TaskAt, TaskRank;
    SoundAt(Goto(w, task), |w.run.log|, RowId(w.run));
  }

  lemma {:induction false} LoopStep(w: World, now: int, rowId: int)
    requires Sound(w) && w.process.Some? && w.process.value.task.Loop?
    ensures GoodStep(w, now, Perform(w, now, rowId))
  {
    hide GoodStep;
    var n, id, calls := |w.run.log|, RowId(w.run), w.process.value.task.calls;
    assert Perform(w, now, rowId) == NextCall(w, calls);
    NextCallIs(w);
    hide NextCall, Perform;
    if n == 3 {
      assert TenEvents(id)[n - 1] == IntentEvent(FILE_CALL);
      GotoStep(w, now, ReadFile(FILE_CALL, ThenLoop([])));
    } else if n == 6 {
      assert TenEvents(id)[n - 1] == IntentEvent(FINAL_CALL);
      GotoStep(w, now, ProposeTask(FINAL_CALL.id, STATE, ThenLoop([])));
    } else {
      GotoStep(w, now, CheckResult);
    }
  }

  lemma {:induction false} CheckResultStep(w: World, now: int, rowId: int)
    requires Sound(w) && w.process.Some? && w.process.value.task.CheckResult?
    ensures GoodStep(w, now, Perform(w, now, rowId))
  {
    hide TenEvents, HasFileResult, EventsAfter, SetStatus, AppendResponse, RecordResult, Propose, Decide, Renew, Release, Complete;
    var n, id := |w.run.log|, RowId(w.run);
    ResultAt(w.run, n, id);
    SoundAt(Perform(w, now, rowId), n, id);
  }

  lemma {:induction false} FileStep(w: World, now: int, rowId: int)
    requires Sound(w) && w.process.Some?
    requires w.process.value.task.ReadFile? || w.process.value.task.LinkFile?
    ensures GoodStep(w, now, Perform(w, now, rowId))
  {
    hide TenEvents, SetStatus, AppendResponse, RecordResult, Propose, Decide, Renew, Release, Complete;
    SoundAt(Perform(w, now, rowId), 3, RowId(w.run));
  }

  lemma {:induction false} SaveStep(w: World, now: int, rowId: int)
    requires Sound(w) && w.process.Some? && w.process.value.task.SaveResult?
    ensures GoodStep(w, now, Perform(w, now, rowId))
  {
    hide TenEvents, SetStatus, AppendResponse, Propose, Decide, Renew, Release, Complete;
    var id, lease := RowId(w.run), w.process.value.lease;
    if Writable(w.run, lease, now) {
      hide RecordResult;
      SaveAt(w.run, id, lease, now);
      SoundAt(Perform(w, now, rowId), 4, id);
    } else {
      SoundAt(Perform(w, now, rowId), 3, id);
    }
  }

  lemma {:induction false} ProposeStep(w: World, now: int, rowId: int)
    requires Sound(w) && w.process.Some? && w.process.value.task.ProposeTask?
    ensures GoodStep(w, now, Perform(w, now, rowId))
  {
    hide TenEvents, SetStatus, AppendResponse, RecordResult, Decide, Renew, Release, Complete;
    var id, lease := RowId(w.run), w.process.value.lease;
    if Writable(w.run, lease, now) {
      hide Propose;
      ProposeAt(w.run, id, lease, now, rowId);
      SameStart(id, rowId);
      SoundAt(Perform(w, now, rowId), 7, rowId);
    } else {
      SoundAt(Perform(w, now, rowId), 6, id);
    }
  }

  lemma {:induction false} SameStart(id: int, other: int)
    ensures TenEvents(id)[..6] == TenEvents(other)[..6] <= TenEvents(other)[..7]
  {
  }

  lemma {:induction false} FetchStep(w: World, now: int, rowId: int)
    requires Sound(w) && w.process.Some? && w.process.value.task.FetchTask?
    ensures GoodStep(w, now, Perform(w, now, rowId))
  {
    hide TenEvents, SetStatus, AppendResponse, RecordResult, Propose, Decide, Renew, Release, Complete;
    SoundAt(Perform(w, now, rowId), 7, RowId(w.run));
  }

  lemma {:induction false} VerifyStep(w: World, now: int, rowId: int)
    requires Sound(w) && w.process.Some? && w.process.value.task.VerifyTask?
    ensures GoodStep(w, now, Perform(w, now, rowId))
  {
    hide TenEvents, SetStatus, AppendResponse, RecordResult, Propose, Decide, Renew, Release, Complete;
    SoundAt(Perform(w, now, rowId), 7, RowId(w.run));
  }

  lemma {:induction false} DecideStep(w: World, now: int, rowId: int)
    requires Sound(w) && w.process.Some? && w.process.value.task.DecideTask?
    ensures GoodStep(w, now, Perform(w, now, rowId))
  {
    hide TenEvents, SetStatus, AppendResponse, RecordResult, Propose, Renew, Release, Complete;
    var id, lease := RowId(w.run), w.process.value.lease;
    if Writable(w.run, lease, now) {
      hide Decide;
      DecideAt(w.run, id, lease, now);
      SoundAt(Perform(w, now, rowId), 9, id);
    } else {
      SoundAt(Perform(w, now, rowId), 7, id);
    }
  }

  lemma {:induction false} RequestStep(w: World, now: int, rowId: int)
    requires Sound(w) && w.process.Some? && (w.process.value.task.RequestFile? || w.process.value.task.RequestCheckpoint?)
    ensures GoodStep(w, now, Perform(w, now, rowId))
  {
    hide TenEvents, SetStatus, RecordResult, Propose, Decide, Renew, Release, Complete;
    var n, id, lease := |w.run.log|, RowId(w.run), w.process.value.lease;
    if Writable(w.run, lease, now) {
      hide AppendResponse;
      if n == 1 {
        RespondAt(w.run, n, id, lease, now, FILE_RESPONSE, FILE_CALL);
      } else {
        RespondAt(w.run, n, id, lease, now, FINAL_RESPONSE, FINAL_CALL);
      }
      SoundAt(Perform(w, now, rowId), n + 2, id);
    } else {
      SoundAt(Perform(w, now, rowId), n, id);
    }
  }

  lemma {:induction false} EndStep(w: World, now: int, rowId: int)
    requires Sound(w) && w.process.Some?
    requires w.process.value.task.RenewLast? || w.process.value.task.FinishRun? || w.process.value.task.GiveUp?
    ensures GoodStep(w, now, Perform(w, now, rowId))
  {
    var n, id := |w.run.log|, RowId(w.run);
    LastEvent(id);
    hide TenEvents, RowsAt, SetStatus, AppendResponse, RecordResult, Propose, Decide;
    if w.process.value.task.FinishRun? && Writable(w.run, w.process.value.lease, now) {
      SoundAt(Perform(w, now, rowId), 10, id);
    } else {
      SoundAt(Perform(w, now, rowId), n, id);
    }
  }

  lemma {:induction false} LastEvent(id: int)
    ensures TenEvents(id)[..9] + [FINISH] == TenEvents(id)[..10]
    ensures RowsAt(9, id) == RowsAt(10, id)
  {
  }

  lemma {:induction false} PerformStep(w: World, now: int, rowId: int)
    requires Sound(w) && w.process.Some?
    ensures GoodStep(w, now, Perform(w, now, rowId))
  {
    hide Sound, GoodStep, Perform;
    match w.process.value.task
    case StartRun => StartStep(w, now, rowId);
    case CheckDone => ReadingStep(w, now, rowId);
    case FindCandidate => ReadingStep(w, now, rowId);
    case FindCalls => ReadingStep(w, now, rowId);
    case Loop(_) => LoopStep(w, now, rowId);
    case CheckResult => CheckResultStep(w, now, rowId);
    case ReadFile(_, _) => FileStep(w, now, rowId);
    case LinkFile(_, _) => FileStep(w, now, rowId);
    case SaveResult(_, _, _) => SaveStep(w, now, rowId);
    case RequestFile => RequestStep(w, now, rowId);
    case RequestCheckpoint => RequestStep(w, now, rowId);
    case RenewLast => EndStep(w, now, rowId);
    case FinishRun => EndStep(w, now, rowId);
    case GiveUp => EndStep(w, now, rowId);
    case ProposeTask(_, _, _) => ProposeStep(w, now, rowId);
    case FetchTask(_, _) => FetchStep(w, now, rowId);
    case VerifyTask(_, _, _) => VerifyStep(w, now, rowId);
    case DecideTask(_, _, _) => DecideStep(w, now, rowId);
  }

  /** Launches, crashes and single steps of the process all keep the world sound. */
  lemma {:induction false} StepSound(w: World, m: Move)
    requires Sound(w)
    ensures Sound(Step(w, m)) && w.run.log <= Step(w, m).run.log
  {
    hide TenEvents, Perform;
    if m.Advance? && w.process.Some? && !(NeedsLease(w.process.value.task) && !w.process.value.ready) {
      PerformStep(w, m.now, m.rowId);
    }
  }

  // ---------- Whole schedules ----------

  lemma {:induction false} AlwaysSound(createdAt: int, moves: seq<Move>)
    ensures Sound(StepAll(Created(createdAt), moves))
  {
    if moves == [] {
      assert TenEvents(0)[..0] == [];
    } else {
      hide Sound, Step;
      AlwaysSound(createdAt, moves[..|moves| - 1]);
      StepSound(StepAll(Created(createdAt), moves[..|moves| - 1]), moves[|moves| - 1]);
    }
  }

  /** Whatever crashes, launches and delays happened, the log is a prefix of the
      ten events of a run that never crashed, and it is all ten exactly when the
      run has completed; the recorded file result is what the file contains. */
  lemma {:induction false} CrashTransparency(createdAt: int, moves: seq<Move>)
    ensures var w := StepAll(Created(createdAt), moves);
      var ten := TenEvents(RowId(w.run));
      && w.run.log <= ten
      && (w.run.status == Completed <==> w.run.log == ten)
      && (w.run.log != [] && w.run.status != Completed ==> w.run.status == Running)
      && w.files.Keys <= {FILE_CALL.id}
      && (|w.run.log| > 3 ==> FILE_CALL.id in w.files && w.run.log[3].payload == Outcome(FILE_CALL.id, w.files[FILE_CALL.id]))
  {
    AlwaysSound(createdAt, moves);
  }

  predicate FilesKept(before: map<string, Value>, after: map<string, Value>) {
    forall name :: name in before ==> name in after && after[name] == before[name]
  }

  /** A published file is never replaced or removed, by any process. */
  lemma {:induction false} FilePublishedOnce(w: World, moves: seq<Move>)
    ensures FilesKept(w.files, StepAll(w, moves).files)
  {
    hide Step;
    if moves != [] {
      FilePublishedOnce(w, moves[..|moves| - 1]);
      StepKeepsFiles(StepAll(w, moves[..|moves| - 1]), moves[|moves| - 1]);
    }
  }

  lemma {:induction false} StepKeepsFiles(w: World, m: Move)
    ensures FilesKept(w.files, Step(w, m).files)
  {
    hide FreshId, SetStatus, AppendResponse, RecordResult, Propose, Decide, Renew, Release, Complete, LatestWith, HasFileResult;
  }

  function OpOf(task: Task, lease: Lease, now: int, rowId: int): Op {
    match task
    case StartRun => DoSetStatus(lease, now, Running)
    case SaveResult(callId, result, _) => DoResult(lease, now, callId, result)
    case ProposeTask(callId, state, _) => DoPropose(lease, now, callId, state, rowId)
    case DecideTask(id, v, _) => DoDecide(lease, now, id, v.passed, VerificationValue(v))
    case RequestFile => DoRespond(lease, now, FILE_RESPONSE, IntentsFor([FILE_CALL]))
    case RequestCheckpoint => DoRespond(lease, now, FINAL_RESPONSE, IntentsFor([FINAL_CALL]))
    case FinishRun => DoComplete(lease, now)
    case GiveUp => DoRelease(lease)
    case _ => DoRenew(lease, now, LEASE_TTL_MS)
  }

  /** The transaction a move issues. */
  function Issued(w: World, m: Move): Option<Op> {
    match m
    case Launch(owner, now, recover) => Some(DoClaim(owner, now, LEASE_TTL_MS, recover))
    case Crash => None
    case Beat(now) => if w.process.Some? then Some(DoRenew(w.process.value.lease, now, LEASE_TTL_MS)) else None
    case Advance(now, rowId) =>
      if w.process.None? then None
      else
        var p := w.process.value;
        Some(if NeedsLease(p.task) && !p.ready then DoRenew(p.lease, now, LEASE_TTL_MS) else OpOf(p.task, p.lease, now, rowId))
  }

  /** A move commits at most one transaction, and it is one of AgentContext's. */
  lemma {:induction false} MoveIsTransaction(w: World, m: Move)
    ensures Issued(w, m).Some? ==> AgentOp(Issued(w, m).value)
    ensures Step(w, m).run == w.run || (Issued(w, m).Some? && Step(w, m).run == Next(w.run, Issued(w, m).value))
  {
    if m.Advance? && w.process.Some? && !(NeedsLease(w.process.value.task) && !w.process.value.ready) {
      hide Step;
      PerformIsTransaction(w, m.now, m.rowId);
      StepPerforms(w, m);
    }
  }

  lemma {:induction false} StepPerforms(w: World, m: Move)
    requires m.Advance? && w.process.Some? && !(NeedsLease(w.process.value.task) && !w.process.value.ready)
    ensures Step(w, m) == w || Step(w, m) == Perform(w, m.now, m.rowId)
    ensures FreshId(w.run, m.rowId) || Step(w, m) == w
  {
    hide Perform;
  }

  lemma {:induction false} PerformIsTransaction(w: World, now: int, rowId: int)
    requires w.process.Some?
    ensures var op := OpOf(w.process.value.task, w.process.value.lease, now, rowId);
      AgentOp(op) && (FreshId(w.run, rowId) ==> Perform(w, now, rowId).run == w.run || Perform(w, now, rowId).run == Next(w.run, op))
  {
    hide FreshId, SetStatus, AppendResponse, RecordResult, Propose, Decide, Renew, Release, Complete, LatestWith, HasFileResult;
  }

  function TimeOf(m: Move): int
    requires m.Advance? || m.Beat?
  {
    if m.Advance? then m.now else m.beatAt
  }

  /** A step or a heartbeat that comes before the lease has expired. */
  predicate TimelyMove(run: Run, m: Move) {
    && (m.Beat? || (m.Advance? && FreshId(run, m.rowId)))
    && CheckedAdd(TimeOf(m), LEASE_TTL_MS).Some?
    && (run.expires.Some? ==> TimeOf(m) < run.expires.value)
  }

  predicate Timely(w: World, moves: seq<Move>) {
    moves == [] ||
    var init, m := moves[..|moves| - 1], moves[|moves| - 1];
    Timely(w, init) && TimelyMove(StepAll(w, init).run, m)
  }

  function Steps(moves: seq<Move>): nat {
    if moves == [] then 0
    else Steps(moves[..|moves| - 1]) + if moves[|moves| - 1].Advance? then 1 else 0
  }

  predicate OnTheWay(w: World) {
    Sound(w) && (w.run.status == Completed || (HoldsLease(w) && !w.process.value.task.GiveUp?))
  }

  lemma {:induction false} AdvanceNearer(w: World, now: int, rowId: int)
    requires Sound(w) && Live(w, now) && FreshId(w.run, rowId)
    ensures Nearer(w, now, Step(w, Advance(now, rowId)))
  {
    hide Perform, TenEvents;
    if !(NeedsLease(w.process.value.task) && !w.process.value.ready) {
      PerformStep(w, now, rowId);
    }
  }

  lemma {:induction false} BeatHolds(w: World, now: int)
    requires Sound(w) && Live(w, now)
    ensures var after := Step(w, Beat(now));
      && HoldsLease(after) && after.process == w.process && after.run.log == w.run.log
      && (after.run.expires == w.run.expires || after.run.expires == Some(now + LEASE_TTL_MS))
  {
  }

  lemma {:induction false} CompletedStays(w: World, m: Move)
    requires Sound(w) && w.run.status == Completed
    ensures Step(w, m).run == w.run
  {
  }

  /** One timely move: a step gets nearer, a heartbeat does no harm. */
  lemma {:induction false} TimelyStep(w: World, m: Move)
    requires OnTheWay(w) && TimelyMove(w.run, m)
    ensures var after := Step(w, m);
      && OnTheWay(after)
      && (after.run.status != Completed ==>
            w.run.status != Completed && Rank(after) + (if m.Advance? then 1 else 0) <= Rank(w))
  {
    hide Sound, Rank, Step;
    StepSound(w, m);
    if w.run.status == Completed {
      CompletedStays(w, m);
    } else if m.Advance? {
      AdvanceNearer(w, m.now, m.rowId);
    } else {
      BeatHolds(w, m.beatAt);
      SameRank(w, Step(w, m));
    }
  }

  lemma {:induction false} TimelyProgress(w: World, moves: seq<Move>)
    requires OnTheWay(w) && Timely(w, moves)
    ensures var after := StepAll(w, moves);
      OnTheWay(after) && (after.run.status != Completed ==> w.process.Some? && Rank(after) + Steps(moves) <= Rank(w))
  {
    if moves != [] {
      var init, m := moves[..|moves| - 1], moves[|moves| - 1];
      TimelyProgress(w, init);
      hide OnTheWay, Rank, Step;
      TimelyStep(StepAll(w, init), m);
    }
  }

  lemma {:induction false} SameRank(w: World, after: World)
    requires w.process.Some? && after.process == w.process && after.run.log == w.run.log
    ensures Rank(after) == Rank(w)
  {
  }

  /** Steps that all come within one time to live of a start, each with the
      next row id. */
  predicate WithinTtl(moves: seq<Move>, start: int, firstId: int) {
    && I64_MIN <= start && start + 2 * LEASE_TTL_MS <= I64_MAX
    && forall i :: 0 <= i < |moves| ==>
         moves[i].Advance? && start <= moves[i].now < start + LEASE_TTL_MS && moves[i].rowId == firstId + i
  }

  lemma {:induction false} IdsGrow(w: World, now: int, rowId: int)
    requires FreshId(w.run, rowId)
    ensures FreshId(Step(w, Advance(now, rowId)).run, rowId + 1)
  {
    hide Step, Next;
    MoveIsTransaction(w, Advance(now, rowId));
    if w.process.Some? {
      ProposalsUseTheId(w.run, Issued(w, Advance(now, rowId)).value, rowId);
    }
  }

  lemma {:induction false} ProposalsUseTheId(run: Run, op: Op, rowId: int)
    requires FreshId(run, rowId) && (op.DoPropose? ==> op.id == rowId)
    ensures FreshId(Next(run, op), rowId + 1)
  {
  }

  lemma {:induction false} SoundExpires(w: World)
    requires Sound(w) && w.run.status == Completed
    ensures w.run.expires.None?
  {
  }

  lemma {:induction false} WindowIsTimely(w: World, moves: seq<Move>, start: int, firstId: int)
    requires OnTheWay(w) && FreshId(w.run, firstId) && WithinTtl(moves, start, firstId)
    requires w.run.expires.Some? ==> w.run.expires.value >= start + LEASE_TTL_MS
    ensures Timely(w, moves) && Steps(moves) == |moves|
    ensures var after := StepAll(w, moves).run;
      && FreshId(after, firstId + |moves|)
      && (after.expires.Some? ==> after.expires.value >= start + LEASE_TTL_MS)
  {
    if moves != [] {
      var init, m := moves[..|moves| - 1], moves[|moves| - 1];
      WindowIsTimely(w, init, start, firstId);
      TimelyProgress(w, init);
      IdsGrow(StepAll(w, init), m.now, m.rowId);
      hide Sound, OnTheWay, Step, FreshId;
      LeaseStretches(StepAll(w, init), m, start);
    }
  }

  /** A timely step leaves the run's lease with the same TTL ahead, or gone. */
  lemma {:induction false} LeaseStretches(w: World, m: Move, start: int)
    requires OnTheWay(w) && m.Advance? && FreshId(w.run, m.rowId) && start <= m.now
    requires CheckedAdd(m.now, LEASE_TTL_MS).Some?
    requires w.run.expires.Some? ==> m.now < start + LEASE_TTL_MS <= w.run.expires.value
    ensures var after := Step(w, m).run;
      after.expires.Some? ==> after.expires.value >= start + LEASE_TTL_MS
  {
    hide Sound, Rank, Step;
    if w.run.status == Completed {
      CompletedStays(w, m);
    } else {
      AdvanceNearer(w, m.now, m.rowId);
      StepSound(w, m);
      if Step(w, m).run.status == Completed {
        SoundExpires(Step(w, m));
      }
    }
  }

  const MOST_STEPS := 432

  /** After any schedule of launches and crashes, one recovery that is given
      enough time completes the run, with the log of the crash-free run. */
  lemma {:induction false} RecoveryCompletes(createdAt: int, history: seq<Move>, owner: Uuid, now: int, moves: seq<Move>)
    requires CheckedAdd(now, LEASE_TTL_MS).Some?
    requires Timely(StepAll(Created(createdAt), history + [Crash, Launch(owner, now, true)]), moves)
    requires Steps(moves) >= MOST_STEPS
    ensures var w := StepAll(Created(createdAt), history + [Crash, Launch(owner, now, true)] + moves);
      w.run.status == Completed && w.run.log == TenEvents(RowId(w.run))
  {
    var w := StepAll(Created(createdAt), history);
    var start := history + [Crash, Launch(owner, now, true)];
    var launched := StepAll(Created(createdAt), start);
    hide Perform, TenEvents;
    AlwaysSound(createdAt, history);
    AlwaysSound(createdAt, start);
    assert start[..|start| - 1] == history + [Crash] && (history + [Crash])[..|history|] == history;
    assert launched == Step(Step(w, Crash), Launch(owner, now, true));
    assert OnTheWay(launched);
    TimelyProgress(launched, moves);
    StepAllSplits(Created(createdAt), start, moves);
    AlwaysSound(createdAt, start + moves);
  }

  lemma {:induction false} StepAllSplits(w: World, first: seq<Move>, second: seq<Move>)
    ensures StepAll(w, first + second) == StepAll(StepAll(w, first), second)
  {
    if second == [] {
      assert first + second == first;
    } else {
      var init := second[..|second| - 1];
      StepAllSplits(w, first, init);
      assert (first + second)[..|first + second| - 1] == first + init;
    }
  }

  /** The run that never crashes: launched once and left alone for one time to
      live, it completes. So the log every schedule arrives at is its log. */
  lemma {:induction false} CrashFreeRunCompletes(createdAt: int, owner: Uuid, start: int, moves: seq<Move>)
    requires WithinTtl(moves, start, 1) && |moves| >= MOST_STEPS
    ensures var w := StepAll(Step(Created(createdAt), Launch(owner, start, false)), moves);
      w.run.status == Completed && w.run.log == TenEvents(RowId(w.run))
  {
    var launched := Step(Created(createdAt), Launch(owner, start, false));
    AlwaysSound(createdAt, []);
    StepSound(Created(createdAt), Launch(owner, start, false));
    WindowIsTimely(launched, moves, start, 1);
    TimelyProgress(launched, moves);
  }

  /** The program only issues transactions of AgentContext, so everything proved
      about those holds of its run. */
  lemma {:induction false} RunKeepsInvariant(createdAt: int, moves: seq<Move>)
    ensures Inv(StepAll(Created(createdAt), moves).run)
  {
    hide Inv, Step, Next;
    if moves == [] {
      NewRunInv(createdAt);
    } else {
      var before, m := StepAll(Created(createdAt), moves[..|moves| - 1]), moves[|moves| - 1];
      RunKeepsInvariant(createdAt, moves[..|moves| - 1]);
      MoveIsTransaction(before, m);
      if Issued(before, m).Some? {
        NextPreserves(before.run, Issued(before, m).value);
      }
    }
  }
}

/** The example agent when force_recover() is called although its predecessor may
    still be alive: any number of processes on one run and one output directory,
    stepping in any order. At most the newest can write to the run; the others
    may still reach the create-if-absent link. */
module Rivals {
  import opened Types
  import opened Runs
  import opened DurableAgent

  /** What DurableAgent.World has, with every process that is still there. */
  datatype Rivalry = Rivalry(run: Run, files: map<string, Value>, processes: map<nat, Process>)

  function Created(createdAt: int): Rivalry {
    Rivalry(NewRun(createdAt), map[], map[])
  }

  /** The world as one process has it. */
  function AsSeenBy(r: Rivalry, k: nat): World {
    World(r.run, r.files, if k in r.processes then Some(r.processes[k]) else None)
  }

  /** One move of process k: a launch under a new number, forced or not, or a
      step, a heartbeat or a crash of a process that is there. */
  function Step(r: Rivalry, k: nat, m: Move): Rivalry {
    var w := DurableAgent.Step(AsSeenBy(r, k), m);
    Rivalry(w.run, w.files, if w.process.Some? then r.processes[k := w.process.value] else r.processes - {k})
  }

  function StepAll(r: Rivalry, moves: seq<(nat, Move)>): Rivalry {
    if moves == [] then r
    else Step(StepAll(r, moves[..|moves| - 1]), moves[|moves| - 1].0, moves[|moves| - 1].1)
  }

  // ---------- A process that has been fenced ----------

  /** Calls that the program itself recorded. */
  predicate OwnCalls(calls: seq<Event>) {
    forall i :: 0 <= i < |calls| ==>
      calls[i] == IntentEvent(FILE_CALL) || calls[i] == IntentEvent(FINAL_CALL)
  }

  predicate OwnThen(andThen: Then) {
    andThen.ThenLoop? ==> OwnCalls(andThen.rest)
  }

  /** Wherever a process is, the only file it may write is its own. */
  predicate OwnTask(task: Task) {
    match task
    case Loop(calls) => OwnCalls(calls)
    case ReadFile(call, andThen) => call == FILE_CALL && OwnThen(andThen)
    case LinkFile(call, andThen) => call == FILE_CALL && OwnThen(andThen)
    case _ => true
  }

  lemma {:induction false} SoundIsOwn(w: World)
    requires Sound(w) && w.process.Some?
    ensures OwnTask(w.process.value.task)
  {
    var n, id := |w.run.log|, RowId(w.run);
    assert n == 3 ==> TenEvents(id)[n - 1] == IntentEvent(FILE_CALL);
    assert n == 6 ==> TenEvents(id)[n - 1] == IntentEvent(FINAL_CALL);
  }

  predicate Fenced(w: World) {
    w.process.Some? && w.process.value.lease.epoch != w.run.epoch && OwnTask(w.process.value.task)
  }

  lemma {:induction false} FencedNextCall(w: World, calls: seq<Event>)
    requires w.process.Some? && OwnCalls(calls)
    ensures var after := NextCall(w, calls);
      && after.run == w.run && after.files == w.files
      && (after.process.Some? ==> after.process.value.lease == w.process.value.lease && OwnTask(after.process.value.task))
  {
    if calls != [] {
      assert OwnCalls(calls[1..]);
      assert |FILE_CALL.name| != |CHECKPOINT_TOOL|;
    }
  }

  /** What a fenced process can make of the world: the run as it was, no file
      changed but its own, and that one only by creating it. */
  predicate FencedAfter(w: World, after: World)
    requires w.process.Some?
  {
    && after.run == w.run
    && (after.files == w.files
        || (FILE_CALL.id !in w.files
            && after.files == w.files[FILE_CALL.id := FILE_RESULT]))
    && (after.process.Some? ==>
          after.process.value.lease.epoch == w.process.value.lease.epoch && OwnTask(after.process.value.task))
  }

  lemma {:induction false} FencedFileTask(w: World, now: int, rowId: int)
    requires Fenced(w) && (w.process.value.task.ReadFile? || w.process.value.task.LinkFile?)
    ensures FencedAfter(w, Perform(w, now, rowId))
  {
    hide SetStatus, AppendResponse, RecordResult, Propose, Decide, Renew, Release, Complete, OwnCalls;
  }

  /** Transactions of a fenced process are refused. */
  lemma {:induction false} FencedTransaction(w: World, now: int, rowId: int)
    requires Fenced(w)
    requires var task := w.process.value.task;
      !task.ReadFile? && !task.LinkFile? && !task.Loop? && !task.VerifyTask? && !task.CheckResult?
    ensures FencedAfter(w, Perform(w, now, rowId))
  {
    assert !LeaseValid(w.run, w.process.value.lease, now);
    hide LeaseValid, LatestWith, FILE_CALL, FILE_RESULT;
  }

  lemma {:induction false} FencedPerform(w: World, now: int, rowId: int)
    requires Fenced(w)
    ensures FencedAfter(w, Perform(w, now, rowId))
  {
    var task := w.process.value.task;
    if task.ReadFile? || task.LinkFile? {
      hide Perform;
      FencedFileTask(w, now, rowId);
    } else if task.Loop? {
      hide NextCall, OwnCalls;
      FencedNextCall(w, task.calls);
    } else if task.VerifyTask? || task.CheckResult? {
      hide HasFileResult, LatestWith;
    } else {
      hide Perform;
      FencedTransaction(w, now, rowId);
    }
  }

  /** A fenced process changes nothing in the run, and no file but its own. */
  lemma {:induction false} FencedStep(w: World, m: Move)
    requires Fenced(w)
    ensures FencedAfter(w, DurableAgent.Step(w, m))
  {
    hide Perform;
    if m.Advance? {
      FencedPerform(w, m.now, m.rowId);
    }
  }

  // ---------- Everything together ----------

  predicate NewestIsSound(r: Rivalry, k: nat)
    requires k in r.processes
  {
    r.processes[k].lease.epoch == r.run.epoch ==> Sound(AsSeenBy(r, k))
  }

  ghost predicate RivalsOk(r: Rivalry) {
    && Sound(World(r.run, r.files, None))
    && (forall k :: k in r.processes ==>
          r.processes[k].lease.epoch <= r.run.epoch && OwnTask(r.processes[k].task) && NewestIsSound(r, k))
    && (forall k, l :: k in r.processes && l in r.processes && k != l ==>
          r.processes[k].lease.epoch != r.processes[l].lease.epoch)
  }

  lemma {:induction false} WithoutProcess(w: World)
    requires Sound(w)
    ensures Sound(w.(process := None))
  {
  }

  /** The file may appear at any time; nobody minds. */
  lemma {:induction false} FileMayAppear(w: World)
    requires Sound(w)
    ensures Sound(w.(files := w.files[FILE_CALL.id := FILE_RESULT]))
  {
    hide TenEvents;
  }

  lemma {:induction false} PerformKeepsLease(w: World, now: int, rowId: int)
    requires w.process.Some?
    ensures var after := Perform(w, now, rowId);
      after.process.Some? ==> after.process.value.lease.epoch == w.process.value.lease.epoch
  {
    hide SetStatus, AppendResponse, RecordResult, Propose, Decide, Release, Complete, FreshId, LatestWith, HasFileResult;
  }

  lemma {:induction false} StepKeepsLease(w: World, m: Move)
    requires w.process.Some?
    ensures var after := DurableAgent.Step(w, m);
      after.process.Some? ==> after.process.value.lease.epoch == w.process.value.lease.epoch
  {
    hide Perform, FreshId;
    if m.Advance? {
      PerformKeepsLease(w, m.now, m.rowId);
    }
  }

  lemma {:induction false} StepKeepsEpoch(w: World, m: Move)
    requires w.process.Some?
    ensures var after := DurableAgent.Step(w, m);
      && after.run.epoch == w.run.epoch
      && (after.process.Some? ==> after.process.value.lease.epoch == w.process.value.lease.epoch)
  {
    StepKeepsLease(w, m);
    if m.Launch? {
      assert DurableAgent.Step(w, m) == w;
    } else {
      hide DurableAgent.Step, Next;
      MoveIsTransaction(w, m);
      if Issued(w, m).Some? {
        EpochStays(w.run, Issued(w, m).value);
      }
    }
  }

  lemma {:induction false} EpochStays(run: Run, op: Op)
    requires op.ByLease()
    ensures Next(run, op).epoch == run.epoch
  {
  }

  lemma {:induction false} LaunchAddsNewest(r: Rivalry, k: nat, m: Move)
    requires RivalsOk(r) && k !in r.processes
    ensures RivalsOk(Step(r, k, m)) && r.run.log <= Step(r, k, m).run.log
  {
    var w := AsSeenBy(r, k);
    StepSound(w, m);
    var after := DurableAgent.Step(w, m);
    assert after == w || (after.run.epoch == r.run.epoch + 1 && after.process.Some?
                          && after.process.value.lease.epoch == after.run.epoch && after.files == w.files);
    hide Sound, DurableAgent.Step;
    if after == w {
      assert Step(r, k, m) == r;
    } else {
      WithoutProcess(after);
      assert AsSeenBy(Step(r, k, m), k) == after;
      if Sound(after) {
        SoundIsOwn(after);
      }
    }
  }

  lemma {:induction false} NewestSteps(r: Rivalry, k: nat, m: Move)
    requires RivalsOk(r) && k in r.processes && r.processes[k].lease.epoch == r.run.epoch
    ensures RivalsOk(Step(r, k, m)) && r.run.log <= Step(r, k, m).run.log
  {
    hide Sound, DurableAgent.Step;
    var w := AsSeenBy(r, k);
    assert Sound(w) by {
      assert NewestIsSound(r, k);
    }
    StepSound(w, m);
    StepKeepsEpoch(w, m);
    var after := DurableAgent.Step(w, m);
    WithoutProcess(after);
    if after.process.Some? {
      SoundIsOwn(after);
      assert AsSeenBy(Step(r, k, m), k) == after;
    }
  }

  lemma {:induction false} FencedSteps(r: Rivalry, k: nat, m: Move)
    requires RivalsOk(r) && k in r.processes && r.processes[k].lease.epoch != r.run.epoch
    ensures RivalsOk(Step(r, k, m)) && Step(r, k, m).run == r.run
  {
    hide Sound, DurableAgent.Step;
    var w := AsSeenBy(r, k);
    FencedStep(w, m);
    var next := Step(r, k, m);
    FileMayAppear(World(r.run, r.files, None));
    forall l | l in next.processes
      ensures next.processes[l].lease.epoch <= next.run.epoch && OwnTask(next.processes[l].task) && NewestIsSound(next, l)
    {
      if l != k && r.processes[l].lease.epoch == r.run.epoch {
        assert NewestIsSound(r, l);
        FileMayAppear(AsSeenBy(r, l));
      }
    }
  }

  lemma {:induction false} StepOk(r: Rivalry, k: nat, m: Move)
    requires RivalsOk(r)
    ensures RivalsOk(Step(r, k, m)) && r.run.log <= Step(r, k, m).run.log
  {
    hide RivalsOk, Step;
    if k !in r.processes {
      LaunchAddsNewest(r, k, m);
    } else if r.processes[k].lease.epoch == r.run.epoch {
      NewestSteps(r, k, m);
    } else {
      FencedSteps(r, k, m);
    }
  }

  lemma {:induction false} AlwaysOk(createdAt: int, moves: seq<(nat, Move)>)
    ensures RivalsOk(StepAll(Created(createdAt), moves))
  {
    hide Step, Sound;
    if moves == [] {
      DurableAgent.AlwaysSound(createdAt, []);
    } else {
      hide RivalsOk;
      AlwaysOk(createdAt, moves[..|moves| - 1]);
      StepOk(StepAll(Created(createdAt), moves[..|moves| - 1]), moves[|moves| - 1].0, moves[|moves| - 1].1);
    }
  }

  /** With any number of processes, launched by force while others still run and
      stepping or crashing in any order, the log is still a prefix of the ten
      events of one process that never crashed, all ten exactly when the run is
      completed, and the file has its one content, the recorded one. */
  lemma {:induction false} RivalTransparency(createdAt: int, moves: seq<(nat, Move)>)
    ensures var r := StepAll(Created(createdAt), moves);
      var ten := TenEvents(RowId(r.run));
      && r.run.log <= ten
      && (r.run.status == Completed <==> r.run.log == ten)
      && r.files.Keys <= {FILE_CALL.id}
      && (FILE_CALL.id in r.files ==> r.files[FILE_CALL.id] == FILE_RESULT)
      && (|r.run.log| > 3 ==> FILE_CALL.id in r.files)
  {
    AlwaysOk(createdAt, moves);
  }

  /** Only the process with the run's epoch can change the run. */
  lemma {:induction false} OnlyNewestWrites(createdAt: int, moves: seq<(nat, Move)>, k: nat, m: Move)
    requires k in StepAll(Created(createdAt), moves).processes
    requires StepAll(Created(createdAt), moves).processes[k].lease.epoch != StepAll(Created(createdAt), moves).run.epoch
    ensures Step(StepAll(Created(createdAt), moves), k, m).run == StepAll(Created(createdAt), moves).run
  {
    hide Step, StepAll;
    AlwaysOk(createdAt, moves);
    FencedSteps(StepAll(Created(createdAt), moves), k, m);
  }

  lemma {:induction false} RivalsKeepFiles(r: Rivalry, moves: seq<(nat, Move)>)
    ensures FilesKept(r.files, StepAll(r, moves).files)
  {
    hide DurableAgent.Step;
    if moves != [] {
      var before, last := StepAll(r, moves[..|moves| - 1]), moves[|moves| - 1];
      RivalsKeepFiles(r, moves[..|moves| - 1]);
      StepKeepsFiles(AsSeenBy(before, last.0), last.1);
    }
  }

  // ---------- Fenced processes do not stand in the way ----------

  /** Process k moves in time; nobody else is launched, whatever they do. */
  predicate Contest(r: Rivalry, k: nat, moves: seq<(nat, Move)>) {
    moves == [] ||
    var init := moves[..|moves| - 1];
    var (j, m) := moves[|moves| - 1];
    Contest(r, k, init) && (if j == k then TimelyMove(StepAll(r, init).run, m) else !m.Launch?)
  }

  function StepsOf(k: nat, moves: seq<(nat, Move)>): nat {
    if moves == [] then 0
    else
      var (j, m) := moves[|moves| - 1];
      StepsOf(k, moves[..|moves| - 1]) + if j == k && m.Advance? then 1 else 0
  }

  lemma {:induction false} OthersLeaveTheRun(r: Rivalry, k: nat, j: nat, m: Move)
    requires RivalsOk(r) && OnTheWay(AsSeenBy(r, k)) && j != k && !m.Launch?
    ensures Step(r, j, m).run == r.run && AsSeenBy(Step(r, j, m), k).process == AsSeenBy(r, k).process
  {
    hide Sound;
    if j !in r.processes {
      hide DurableAgent.Step;
      NobodyMoves(AsSeenBy(r, j), m);
    } else if r.processes[j].lease.epoch != r.run.epoch {
      hide DurableAgent.Step;
      FencedSteps(r, j, m);
    } else {
      hide DurableAgent.Step;
      assert NewestIsSound(r, j);
      assert r.run.status == Completed;
      CompletedStays(AsSeenBy(r, j), m);
    }
  }

  lemma {:induction false} NobodyMoves(w: World, m: Move)
    requires w.process.None? && !m.Launch?
    ensures DurableAgent.Step(w, m) == w
  {
  }

  lemma {:induction false} CompletedIsOver(w: World)
    requires Sound(w) && w.run.status == Completed
    ensures w.process.None?
  {
  }

  lemma {:induction false} OthersStayOut(r: Rivalry, k: nat, j: nat, m: Move)
    requires RivalsOk(r) && OnTheWay(AsSeenBy(r, k)) && j != k && !m.Launch?
    ensures var after := AsSeenBy(Step(r, j, m), k);
      && OnTheWay(after) && after.run == r.run
      && (r.run.status != Completed ==> Rank(after) == Rank(AsSeenBy(r, k)))
  {
    hide Sound, Step;
    OthersLeaveTheRun(r, k, j, m);
    StepOk(r, j, m);
    var next := Step(r, j, m);
    if r.run.status == Completed {
      CompletedIsOver(AsSeenBy(r, k));
      assert AsSeenBy(next, k) == World(next.run, next.files, None);
    } else {
      assert NewestIsSound(next, k);
      SameRank(AsSeenBy(r, k), AsSeenBy(next, k));
    }
  }

  lemma {:induction false} ContestProgress(r: Rivalry, k: nat, moves: seq<(nat, Move)>)
    requires RivalsOk(r) && OnTheWay(AsSeenBy(r, k)) && Contest(r, k, moves)
    ensures var after := StepAll(r, moves);
      && RivalsOk(after) && OnTheWay(AsSeenBy(after, k))
      && (after.run.status != Completed ==>
            k in r.processes && Rank(AsSeenBy(after, k)) + StepsOf(k, moves) <= Rank(AsSeenBy(r, k)))
  {
    if moves != [] {
      var init := moves[..|moves| - 1];
      var (j, m) := moves[|moves| - 1];
      ContestProgress(r, k, init);
      var before := StepAll(r, init);
      hide RivalsOk, OnTheWay, Rank, DurableAgent.Step;
      StepOk(before, j, m);
      if j == k {
        TimelyStep(AsSeenBy(before, k), m);
        assert AsSeenBy(Step(before, k, m), k) == DurableAgent.Step(AsSeenBy(before, k), m);
      } else {
        OthersStayOut(before, k, j, m);
      }
    }
  }

  lemma {:induction false} RankBounded(w: World)
    requires Sound(w) && w.process.Some?
    ensures 0 <= Rank(w) < MOST_STEPS
  {
  }

  lemma {:induction false} ForcedLaunch(r: Rivalry, k: nat, owner: Uuid, now: int)
    requires RivalsOk(r) && k !in r.processes && CheckedAdd(now, LEASE_TTL_MS).Some?
    ensures RivalsOk(Step(r, k, Launch(owner, now, true))) && OnTheWay(AsSeenBy(Step(r, k, Launch(owner, now, true)), k))
  {
    StepOk(r, k, Launch(owner, now, true));
    var w := AsSeenBy(r, k);
    StepSound(w, Launch(owner, now, true));
    hide Sound, RivalsOk;
    assert AsSeenBy(Step(r, k, Launch(owner, now, true)), k) == DurableAgent.Step(w, Launch(owner, now, true));
  }

  /** Whatever has happened before, a process launched by force that then moves
      in time completes the run with the ten events, although any number of its
      predecessors are still alive and step, beat and crash in between. */
  lemma {:induction false} RivalRecoveryCompletes(createdAt: int, history: seq<(nat, Move)>, k: nat, owner: Uuid, now: int,
                                                  moves: seq<(nat, Move)>)
    requires k !in StepAll(Created(createdAt), history).processes && CheckedAdd(now, LEASE_TTL_MS).Some?
    requires Contest(Step(StepAll(Created(createdAt), history), k, Launch(owner, now, true)), k, moves)
    requires StepsOf(k, moves) >= MOST_STEPS
    ensures var r := StepAll(Step(StepAll(Created(createdAt), history), k, Launch(owner, now, true)), moves);
      r.run.status == Completed && r.run.log == TenEvents(RowId(r.run))
  {
    var launched := Step(StepAll(Created(createdAt), history), k, Launch(owner, now, true));
    AlwaysOk(createdAt, history);
    hide Step, StepAll, Contest, Rank;
    ForcedLaunch(StepAll(Created(createdAt), history), k, owner, now);
    ContestProgress(launched, k, moves);
    var after := AsSeenBy(StepAll(launched, moves), k);
    if after.run.status != Completed {
      RankBounded(AsSeenBy(launched, k));
      RankBounded(after);
    }
  }
}

/** The SQLite database: its tables, and the transactions of src/db.rs as they
    update rows. Each transaction refines the function of module Runs on the run
    it touches and leaves every other run alone. */
module Store {
  import opened Types
  import opened Keys
  import opened Clock
  import opened Runs
  import opened Steps
  import Invariant

  datatype RunRow = RunRow(status: Status, createdAt: int, owner: Option<Uuid>, epoch: int, expires: Option<int>)

  datatype EventRow = EventRow(runId: Uuid, seqNo: int, event: Event)

  datatype CheckpointRow = CheckpointRow(runId: Uuid, checkpoint: Checkpoint)

  // ---------- Rows of one run ----------

  /** SELECT * FROM events WHERE run_id = ? ORDER BY seq: rows are inserted with
      growing sequence numbers. */
  function Log(events: seq<EventRow>, runId: Uuid): seq<Event> {
    if events == [] then []
    else
      var rest, last := Log(events[..|events| - 1], runId), events[|events| - 1];
      if last.runId == runId then rest + [last.event] else rest
  }

  function Rows(checkpoints: seq<CheckpointRow>, runId: Uuid): seq<Checkpoint> {
    if checkpoints == [] then []
    else
      var rest, last := Rows(checkpoints[..|checkpoints| - 1], runId), checkpoints[|checkpoints| - 1];
      if last.runId == runId then rest + [last.checkpoint] else rest
  }

  /** COALESCE(MAX(seq), -1) over the events of a run. */
  function MaxSeq(events: seq<EventRow>, runId: Uuid): int {
    if events == [] then -1
    else
      var rest, last := MaxSeq(events[..|events| - 1], runId), events[|events| - 1];
      if last.runId == runId && last.seqNo > rest then last.seqNo else rest
  }

  /** Every run's sequence numbers are 0, 1, 2, ... in insertion order. */
  predicate Dense(events: seq<EventRow>) {
    forall i :: 0 <= i < |events| ==> events[i].seqNo == |Log(events[..i], events[i].runId)|
  }

  predicate Conflicts(row: EventRow, runId: Uuid, seqNo: int, key: Option<Key>) {
    && row.runId == runId
    && (row.seqNo == seqNo
        || (row.event.key.Some? && key.Some? && Text(row.event.key.value) == Text(key.value)))
  }

  ghost predicate CanonicalKeys(events: seq<EventRow>) {
    forall i :: 0 <= i < |events| && events[i].event.key.Some? ==> Canonical(events[i].event.key.value)
  }

  lemma {:induction false} LogAppend(events: seq<EventRow>, row: EventRow)
    ensures Log(events + [row], row.runId) == Log(events, row.runId) + [row.event]
    ensures forall r :: r != row.runId ==> Log(events + [row], r) == Log(events, r)
  {
    assert (events + [row])[..|events|] == events;
  }

  lemma {:induction false} RowsAppend(checkpoints: seq<CheckpointRow>, row: CheckpointRow)
    ensures Rows(checkpoints + [row], row.runId) == Rows(checkpoints, row.runId) + [row.checkpoint]
    ensures forall r :: r != row.runId ==> Rows(checkpoints + [row], r) == Rows(checkpoints, r)
  {
    assert (checkpoints + [row])[..|checkpoints|] == checkpoints;
  }

  lemma {:induction false} DenseInit(events: seq<EventRow>)
    requires Dense(events) && events != []
    ensures Dense(events[..|events| - 1])
  {
    var init := events[..|events| - 1];
    assert forall i :: 0 <= i < |init| ==> init[i] == events[i] && init[..i] == events[..i];
  }

  lemma {:induction false} MaxSeqIsLast(events: seq<EventRow>, runId: Uuid)
    requires Dense(events)
    ensures MaxSeq(events, runId) == |Log(events, runId)| - 1
  {
    if events != [] {
      DenseInit(events);
      MaxSeqIsLast(events[..|events| - 1], runId);
    }
  }

  lemma {:induction false} DenseAppend(events: seq<EventRow>, row: EventRow)
    requires Dense(events) && row.seqNo == |Log(events, row.runId)|
    ensures Dense(events + [row])
  {
    var longer := events + [row];
    forall i | 0 <= i < |longer|
      ensures longer[i].seqNo == |Log(longer[..i], longer[i].runId)|
    {
      if i < |events| {
        assert longer[..i] == events[..i];
      } else {
        assert longer[..i] == events;
      }
    }
  }

  /** A row stands in its run's log at its sequence number. */
  lemma {:induction false} RowPosition(events: seq<EventRow>, i: nat)
    requires Dense(events) && i < |events|
    ensures 0 <= events[i].seqNo < |Log(events, events[i].runId)|
    ensures Log(events, events[i].runId)[events[i].seqNo] == events[i].event
  {
    var n := |events| - 1;
    if i < n {
      DenseInit(events);
      RowPosition(events[..n], i);
    }
  }

  lemma {:induction false} RowAt(events: seq<EventRow>, runId: Uuid, p: nat) returns (i: nat)
    requires Dense(events) && p < |Log(events, runId)|
    ensures i < |events| && events[i].runId == runId && events[i].event == Log(events, runId)[p]
  {
    var n := |events| - 1;
    DenseInit(events);
    if p < |Log(events[..n], runId)| {
      i := RowAt(events[..n], runId, p);
    } else {
      i := n;
    }
  }

  predicate Refused(events: seq<EventRow>, runId: Uuid, seqNo: int, key: Option<Key>) {
    exists i :: 0 <= i < |events| && Conflicts(events[i], runId, seqNo, key)
  }

  /** At the next sequence number the unique constraints refuse a row exactly
      when the run's log has the key: UNIQUE(run_id, seq) is never violated. */
  lemma {:induction false} RefusedIsKeyTaken(events: seq<EventRow>, runId: Uuid, key: Option<Key>)
    requires Dense(events) && CanonicalKeys(events) && (key.Some? ==> Canonical(key.value))
    ensures Refused(events, runId, |Log(events, runId)|, key) <==> KeyTaken(Log(events, runId), key)
  {
    hide Text, Canonical, Dense;
    var log := Log(events, runId);
    if i :| 0 <= i < |events| && Conflicts(events[i], runId, |log|, key) {
      RowPosition(events, i);
      SameText(events[i].event.key.value, key.value);
      assert log[events[i].seqNo].key == key;
    }
    if KeyTaken(log, key) {
      var p :| 0 <= p < |log| && log[p].key == key;
      var i := RowAt(events, runId, p);
      assert Conflicts(events[i], runId, |log|, key);
    }
  }

  // ---------- The checkpoint table ----------

  /** Row ids count up from 1 over all runs; rows are never deleted. */
  predicate IdsOk(checkpoints: seq<CheckpointRow>) {
    forall i :: 0 <= i < |checkpoints| ==> checkpoints[i].checkpoint.id == i + 1
  }

  predicate AllFromRows(checkpoints: seq<CheckpointRow>, runId: Uuid, rows: seq<Checkpoint>) {
    forall p :: 0 <= p < |rows| ==> FromRow(checkpoints, runId, rows[p])
  }

  predicate IdsIncrease(rows: seq<Checkpoint>) {
    forall p, q :: 0 <= p < q < |rows| ==> rows[p].id < rows[q].id
  }

  lemma {:induction false} RowsIds(checkpoints: seq<CheckpointRow>, runId: Uuid)
    requires IdsOk(checkpoints)
    ensures AllFromRows(checkpoints, runId, Rows(checkpoints, runId))
    ensures IdsIncrease(Rows(checkpoints, runId))
  {
    if checkpoints != [] {
      var init, last := checkpoints[..|checkpoints| - 1], checkpoints[|checkpoints| - 1];
      RowsIds(init, runId);
      var before := Rows(init, runId);
      forall p | 0 <= p < |before|
        ensures FromRow(checkpoints, runId, before[p]) && before[p].id < |checkpoints|
      {
        assert FromRow(init, runId, before[p]);
      }
    }
  }

  predicate FromRow(checkpoints: seq<CheckpointRow>, runId: Uuid, row: Checkpoint) {
    0 < row.id <= |checkpoints| && checkpoints[row.id - 1] == CheckpointRow(runId, row)
  }

  /** An UPDATE of one row, seen from the run it belongs to. */
  lemma {:induction false} RowsUpdate(checkpoints: seq<CheckpointRow>, k: nat, row: Checkpoint) returns (p: nat)
    requires k < |checkpoints|
    ensures var runId := checkpoints[k].runId;
      && p < |Rows(checkpoints, runId)|
      && Rows(checkpoints, runId)[p] == checkpoints[k].checkpoint
      && Rows(checkpoints[k := CheckpointRow(runId, row)], runId) == Rows(checkpoints, runId)[p := row]
    ensures forall r :: r != checkpoints[k].runId ==>
      Rows(checkpoints[k := CheckpointRow(checkpoints[k].runId, row)], r) == Rows(checkpoints, r)
  {
    var runId, n := checkpoints[k].runId, |checkpoints| - 1;
    var updated := checkpoints[k := CheckpointRow(runId, row)];
    if k == n {
      p := |Rows(checkpoints[..n], runId)|;
      assert updated[..n] == checkpoints[..n];
    } else {
      p := RowsUpdate(checkpoints[..n], k, row);
      assert updated[..n] == checkpoints[..n][k := CheckpointRow(runId, row)];
    }
  }

  predicate IsCandidate(row: CheckpointRow, runId: Uuid, id: int) {
    row.runId == runId && row.checkpoint.id == id && row.checkpoint.status.Candidate?
  }

  /** The candidate with an id in a run, or |checkpoints|. */
  function CandidateAt(checkpoints: seq<CheckpointRow>, runId: Uuid, id: int, from: nat := 0): (k: nat)
    requires from <= |checkpoints|
    ensures from <= k <= |checkpoints|
    ensures k < |checkpoints| ==> IsCandidate(checkpoints[k], runId, id)
    ensures forall j :: from <= j < k ==> !IsCandidate(checkpoints[j], runId, id)
    decreases |checkpoints| - from
  {
    if from == |checkpoints| || IsCandidate(checkpoints[from], runId, id) then from
    else CandidateAt(checkpoints, runId, id, from + 1)
  }

  lemma {:induction false} CandidateAtIsIndex(checkpoints: seq<CheckpointRow>, runId: Uuid, id: int)
    requires IdsOk(checkpoints)
    ensures var k, p := CandidateAt(checkpoints, runId, id), CandidateIndex(Rows(checkpoints, runId), id);
      (k < |checkpoints| <==> p < |Rows(checkpoints, runId)|)
      && (k < |checkpoints| ==> Rows(checkpoints, runId)[p] == checkpoints[k].checkpoint)
  {
    RowsIds(checkpoints, runId);
    var k := CandidateAt(checkpoints, runId, id);
    if k < |checkpoints| {
      var p := RowsUpdate(checkpoints, k, checkpoints[k].checkpoint);
      assert Rows(checkpoints, runId)[p].id == id;
    }
    var p := CandidateIndex(Rows(checkpoints, runId), id);
    if p < |Rows(checkpoints, runId)| {
      assert FromRow(checkpoints, runId, Rows(checkpoints, runId)[p]);
      assert IsCandidate(checkpoints[id - 1], runId, id);
    }
  }

  // ---------- The tables as a map of runs ----------

  function RunOf(row: RunRow, log: seq<Event>, rows: seq<Checkpoint>): Run {
    Run(row.status, row.createdAt, row.owner, row.epoch, row.expires, log, rows)
  }

  ghost function ViewOf(runs: map<Uuid, RunRow>, events: seq<EventRow>, checkpoints: seq<CheckpointRow>): map<Uuid, Run> {
    map r | r in runs :: RunOf(runs[r], Log(events, r), Rows(checkpoints, r))
  }

  ghost predicate TablesOk(runs: map<Uuid, RunRow>, events: seq<EventRow>, checkpoints: seq<CheckpointRow>) {
    && Dense(events)
    && CanonicalKeys(events)
    && IdsOk(checkpoints)
    && (forall i :: 0 <= i < |events| ==> events[i].runId in runs)
    && (forall i :: 0 <= i < |checkpoints| ==> checkpoints[i].runId in runs)
  }

  /** A transaction on one run: the run changes as tx says, a missing run is
      refused, and no other run changes. */
  ghost predicate Performed<T>(before: map<Uuid, Run>, after: map<Uuid, Run>, runId: Uuid, reply: Result<T>,
                               missing: Error, tx: Run -> Outcome<T>)
  {
    if runId in before then
      after == before[runId := tx(before[runId]).After(before[runId])] && reply == tx(before[runId]).Reply()
    else
      after == before && reply == Err(missing)
  }

  lemma {:induction false} ViewAt(runs: map<Uuid, RunRow>, events: seq<EventRow>, checkpoints: seq<CheckpointRow>, runId: Uuid)
    ensures runId in ViewOf(runs, events, checkpoints) <==> runId in runs
    ensures runId in runs ==>
      ViewOf(runs, events, checkpoints)[runId] == RunOf(runs[runId], Log(events, runId), Rows(checkpoints, runId))
  {
  }

  lemma {:induction false} NoRowsYet(events: seq<EventRow>, checkpoints: seq<CheckpointRow>, runId: Uuid)
    requires forall i :: 0 <= i < |events| ==> events[i].runId != runId
    requires forall i :: 0 <= i < |checkpoints| ==> checkpoints[i].runId != runId
    ensures Log(events, runId) == [] && Rows(checkpoints, runId) == []
    decreases |events| + |checkpoints|
  {
    if events != [] {
      NoRowsYet(events[..|events| - 1], checkpoints, runId);
    } else if checkpoints != [] {
      NoRowsYet(events, checkpoints[..|checkpoints| - 1], runId);
    }
  }

  lemma {:induction false} RowReplaced(runs: map<Uuid, RunRow>, events: seq<EventRow>, checkpoints: seq<CheckpointRow>,
                                       k: nat, row: Checkpoint)
    requires TablesOk(runs, events, checkpoints) && k < |checkpoints| && row.id == checkpoints[k].checkpoint.id
    ensures TablesOk(runs, events, checkpoints[k := CheckpointRow(checkpoints[k].runId, row)])
  {
    hide Dense, CanonicalKeys;
  }

  lemma {:induction false} RunReplaced(runs: map<Uuid, RunRow>, events: seq<EventRow>, checkpoints: seq<CheckpointRow>,
                                       runId: Uuid, row: RunRow)
    requires TablesOk(runs, events, checkpoints) && runId in runs
    ensures TablesOk(runs[runId := row], events, checkpoints)
  {
    hide Dense, CanonicalKeys;
  }

  lemma {:induction false} RowAdded(runs: map<Uuid, RunRow>, events: seq<EventRow>, checkpoints: seq<CheckpointRow>,
                                    row: CheckpointRow)
    requires TablesOk(runs, events, checkpoints) && row.runId in runs && row.checkpoint.id == |checkpoints| + 1
    ensures TablesOk(runs, events, checkpoints + [row])
  {
    hide Dense, CanonicalKeys;
  }

  /** The next row id is above all of a run's. */
  lemma {:induction false} NextIdFresh(runs: map<Uuid, RunRow>, events: seq<EventRow>, checkpoints: seq<CheckpointRow>, runId: Uuid)
    requires TablesOk(runs, events, checkpoints)
    ensures runId in runs ==> FreshId(ViewOf(runs, events, checkpoints)[runId], |checkpoints| + 1)
  {
    if runId in runs {
      RowsIds(checkpoints, runId);
      var rows := Rows(checkpoints, runId);
      forall p | 0 <= p < |rows|
        ensures rows[p].id < |checkpoints| + 1
      {
        assert FromRow(checkpoints, runId, rows[p]);
      }
    }
  }

  /** The candidate's place among the rows of its run. */
  lemma {:induction false} CandidatePlace(checkpoints: seq<CheckpointRow>, runId: Uuid, id: int, row: Checkpoint)
    requires IdsOk(checkpoints) && CandidateAt(checkpoints, runId, id) < |checkpoints|
    ensures var k, p, rows := CandidateAt(checkpoints, runId, id), CandidateIndex(Rows(checkpoints, runId), id), Rows(checkpoints, runId);
      && p < |rows| && rows[p] == checkpoints[k].checkpoint
      && Rows(checkpoints[k := CheckpointRow(runId, row)], runId) == rows[p := row]
      && forall r :: r != runId ==> Rows(checkpoints[k := CheckpointRow(runId, row)], r) == Rows(checkpoints, r)
  {
    CandidateAtIsIndex(checkpoints, runId, id);
    var p := RowsUpdate(checkpoints, CandidateAt(checkpoints, runId, id), row);
    RowsIds(checkpoints, runId);
  }

  /** Only one run's rows differ. */
  lemma {:induction false} OneRunTouched(
    runs: map<Uuid, RunRow>, events: seq<EventRow>, checkpoints: seq<CheckpointRow>,
    runs': map<Uuid, RunRow>, events': seq<EventRow>, checkpoints': seq<CheckpointRow>, runId: Uuid)
    requires runId in runs && runs'.Keys == runs.Keys
    requires forall r :: r in runs && r != runId ==> runs'[r] == runs[r]
    requires forall r :: r in runs && r != runId ==> Log(events', r) == Log(events, r)
    requires forall r :: r in runs && r != runId ==> Rows(checkpoints', r) == Rows(checkpoints, r)
    ensures ViewOf(runs', events', checkpoints') ==
      ViewOf(runs, events, checkpoints)[runId := RunOf(runs'[runId], Log(events', runId), Rows(checkpoints', runId))]
  {
  }

  /** The WHERE clause of claim_next_recoverable_run, on a row. */
  predicate RecoverableRow(row: RunRow, now: int) {
    && (row.status == Status.Pending || row.status == Running)
    && (row.owner.None? || (row.expires.Some? && row.expires.value <= now))
  }

  lemma {:induction false} RecoverableRows(runs: map<Uuid, RunRow>, events: seq<EventRow>, checkpoints: seq<CheckpointRow>, now: int)
    ensures ViewOf(runs, events, checkpoints).Keys == runs.Keys
    ensures forall id :: id in runs ==>
      && (Claimable(ViewOf(runs, events, checkpoints)[id], now) <==> RecoverableRow(runs[id], now))
      && ViewOf(runs, events, checkpoints)[id].createdAt == runs[id].createdAt
  {
  }

  class Database {
    var runs: map<Uuid, RunRow>
    var events: seq<EventRow>
    var checkpoints: seq<CheckpointRow>
    var steps: map<(Uuid, string), StepRow>
    var timers: map<(Uuid, string), TimerRow>

    ghost predicate Valid()
      reads this
    {
      TablesOk(runs, events, checkpoints)
    }

    ghost function View(): map<Uuid, Run>
      reads this
    {
      ViewOf(runs, events, checkpoints)
    }

    constructor ()
      ensures Valid() && View() == map[] && steps == map[] && timers == map[]
    {
      runs, events, checkpoints := map[], [], [];
      steps, timers := map[], map[];
    }

    method CreateRun(id: Uuid, createdAt: int) returns (r: Result<()>)
      requires Valid()
      modifies this`runs
      ensures Valid()
      ensures id in old(runs) ==> r == Err(Db) && View() == old(View())
      ensures id !in old(runs) ==>
        r == Ok(()) && View() == old(View())[id := Run(Status.Pending, createdAt, None, 0, None, [], [])]
      ensures Invariant.AllInv(old(View())) ==> Invariant.AllInv(View())
    {
      Invariant.NewRunInv(createdAt);
      hide Invariant.Inv;
      if id in runs {
        return Err(Db);
      }
      runs := runs[id := RunRow(Status.Pending, createdAt, None, 0, None)];
      NoRowsYet(events, checkpoints, id);
      return Ok(());
    }

    // ---------- Leases ----------

    predicate LeaseRow(lease: Lease, now: int)
      reads this`runs
    {
      && lease.runId in runs
      && runs[lease.runId].owner == Some(lease.owner)
      && runs[lease.runId].epoch == lease.epoch
      && runs[lease.runId].expires.Some?
      && runs[lease.runId].expires.value > now
    }

    predicate WritableRow(lease: Lease, now: int)
      reads this`runs
    {
      LeaseRow(lease, now) && runs[lease.runId].status == Running
    }

    method ClaimRunLease(runId: Uuid, owner: Uuid, ttl: Duration, recover: bool, now: int) returns (r: Result<Lease>)
      requires Valid()
      modifies this`runs
      ensures Valid()
      ensures DurationToMillis(ttl).Err? ==> r.Err? && View() == old(View())
      ensures DurationToMillis(ttl).Ok? ==> Performed(old(View()), View(), runId, r, NotFound,
        run => Claim(run, runId, owner, now, DurationToMillis(ttl).value, recover))
      ensures r.Ok? ==>
        && r.value.runId == runId && r.value.owner == owner
        && runId in View() && GrantedTo(View()[runId], r.value)
    {
      hide TablesOk, Log, Rows, DurationToMillis;
      var ttlMs := DurationToMillis(ttl);
      if ttlMs.Err? {
        return Err(ttlMs.error);
      }
      if runId !in runs {
        return Err(NotFound);
      }
      if Terminal(runs[runId].status) {
        return Err(InvalidState);
      }
      var expires := CheckedAdd(now, ttlMs.value);
      if expires.None? {
        return Err(InvalidState);
      }
      if !(recover || runs[runId].owner.None?) {
        return Err(InvalidState);
      }
      var epoch := runs[runId].epoch + 1;
      var taken := runs[runId].(owner := Some(owner), epoch := epoch, expires := expires);
      RunReplaced(runs, events, checkpoints, runId, taken);
      runs := runs[runId := taken];
      OneRunTouched(old(runs), events, checkpoints, runs, events, checkpoints, runId);
      return Ok(Lease(runId, owner, epoch, expires.value));
    }

    /** The recoverable run that comes first by (created_at, id). */
    method SelectRecoverable(now: int) returns (id: Option<Uuid>)
      ensures id.Some? ==> id.value in runs && RecoverableRow(runs[id.value], now)
      ensures forall other :: other in runs && RecoverableRow(runs[other], now) ==>
        && id.Some?
        && runs[id.value].createdAt <= runs[other].createdAt
        && (runs[id.value].createdAt == runs[other].createdAt ==> id.value <= other)
    {
      id := None;
      var rest := runs.Keys;
      while rest != {}
        invariant rest <= runs.Keys
        invariant id.Some? ==> id.value in runs && RecoverableRow(runs[id.value], now)
        invariant forall other :: other in runs && other !in rest && RecoverableRow(runs[other], now) ==>
          id.Some? && ComesFirst(runs[id.value].createdAt, id.value, runs[other].createdAt, other)
      {
        var next :| next in rest;
        rest := rest - {next};
        if RecoverableRow(runs[next], now) && (id.None? || ComesFirst(runs[next].createdAt, next, runs[id.value].createdAt, id.value)) {
          id := Some(next);
        }
      }
    }

    method ClaimNextRecoverableRun(owner: Uuid, ttl: Duration, now: int) returns (r: Result<Option<Lease>>)
      requires Valid()
      modifies this`runs, this`events
      ensures Valid()
      ensures r.Err? || r == Ok(None) ==> View() == old(View())
      ensures r == Ok(None) ==> forall id :: id in View() ==> !Claimable(View()[id], now)
      ensures r.Err? ==> DurationToMillis(ttl).Err? || CheckedAdd(now, DurationToMillis(ttl).value).None?
      ensures r.Ok? && r.value.Some? ==>
        var lease := r.value.value;
        && DurationToMillis(ttl).Ok?
        && lease.runId in old(View()) && Claimable(old(View())[lease.runId], now)
        && (forall id :: id in old(View()) && Claimable(old(View())[id], now) ==>
              ComesFirst(old(View())[lease.runId].createdAt, lease.runId, old(View())[id].createdAt, id))
        && Performed(old(View()), View(), lease.runId, Ok(lease), NotFound,
             run => ClaimSelected(run, lease.runId, owner, now, DurationToMillis(ttl).value))
      ensures r.Ok? && r.value.Some? ==>
        var lease := r.value.value;
        && lease.owner == owner && lease.runId in View()
        && GrantedTo(View()[lease.runId], lease) && View()[lease.runId].status == Running
      ensures Invariant.AllInv(old(View())) ==> Invariant.AllInv(View())
    {
      RecoverableRows(runs, events, checkpoints, now);
      hide Invariant.Inv, TablesOk, ViewOf, Log, Rows, Claimable, GrantedTo, RecoverableRow, DurationToMillis;
      var ttlMs := DurationToMillis(ttl);
      if ttlMs.Err? {
        return Err(ttlMs.error);
      }
      var candidate := SelectRecoverable(now);
      if candidate.None? {
        return Ok(None);
      }
      var runId := candidate.value;
      var expires := CheckedAdd(now, ttlMs.value);
      if expires.None? {
        return Err(InvalidState);
      }
      var lease := TakeRun(runId, owner, expires.value);
      if Invariant.AllInv(old(View())) {
        Invariant.NextPreserves(old(View())[runId], DoClaimNext(owner, now, ttlMs.value));
      }
      return Ok(Some(lease));
    }

    /** The UPDATE of claim_next_recoverable_run, and the transition of a run that
        had not started. */
    method TakeRun(runId: Uuid, owner: Uuid, expires: int) returns (lease: Lease)
      requires Valid() && runId in runs
      modifies this`runs, this`events
      ensures Valid()
      ensures lease == Lease(runId, owner, old(View())[runId].epoch + 1, expires)
      ensures runId in View() && GrantedTo(View()[runId], lease) && View()[runId].status == Running
      ensures var run := old(View())[runId];
        var claimed := run.(status := Running, owner := Some(owner), epoch := run.epoch + 1, expires := Some(expires));
        View() == old(View())[runId :=
          if run.status == Status.Pending then claimed.(log := run.log + [TransitionEvent(Status.Pending, Running)])
          else claimed]
    {
      ViewAt(runs, events, checkpoints, runId);
      var row := runs[runId];
      var taken := row.(status := Running, owner := Some(owner), epoch := row.epoch + 1, expires := Some(expires));
      MaxSeqIsLast(events, runId);
      NoKey(Log(events, runId));
      RunReplaced(runs, events, checkpoints, runId, taken);
      hide TablesOk, ViewOf, Log, Rows, MaxSeq, KeyTaken, Canonical;
      runs := runs[runId := taken];
      if row.status == Status.Pending {
        var seqNo := MaxSeq(events, runId) + 1;
        var ok := InsertEvent(runId, seqNo, TransitionEvent(Status.Pending, Running));
        assert ok;
      }
      OneRunTouched(old(runs), old(events), checkpoints, runs, events, checkpoints, runId);
      lease := Lease(runId, owner, row.epoch + 1, expires);
    }

    method RenewRunLease(lease: Lease, ttl: Duration, now: int) returns (r: Result<Lease>)
      requires Valid()
      modifies this`runs
      ensures Valid()
      ensures DurationToMillis(ttl).Err? ==> r.Err? && View() == old(View())
      ensures DurationToMillis(ttl).Ok? ==> Performed(old(View()), View(), lease.runId, r, InvalidState,
        run => Renew(run, lease, now, DurationToMillis(ttl).value))
    {
      var ttlMs := DurationToMillis(ttl);
      if ttlMs.Err? {
        return Err(ttlMs.error);
      }
      var expires := CheckedAdd(now, ttlMs.value);
      if expires.None? {
        return Err(InvalidState);
      }
      if !LeaseRow(lease, now) || Terminal(runs[lease.runId].status) {
        return Err(InvalidState);
      }
      runs := runs[lease.runId := runs[lease.runId].(expires := expires)];
      OneRunTouched(old(runs), events, checkpoints, runs, events, checkpoints, lease.runId);
      return Ok(lease.(expires := expires.value));
    }

    method ReleaseRunLease(lease: Lease) returns (r: Result<()>)
      requires Valid()
      modifies this`runs
      ensures Valid()
      ensures Performed(old(View()), View(), lease.runId, r, InvalidState, run => Release(run, lease))
    {
      if lease.runId !in runs || runs[lease.runId].owner != Some(lease.owner) || runs[lease.runId].epoch != lease.epoch {
        return Err(InvalidState);
      }
      runs := runs[lease.runId := runs[lease.runId].(owner := None, expires := None)];
      OneRunTouched(old(runs), events, checkpoints, runs, events, checkpoints, lease.runId);
      return Ok(());
    }

    // ---------- Events ----------

    /** insert_event: refused by UNIQUE(run_id, seq) or by the index on
        (run_id, idempotency_key). */
    method InsertEvent(runId: Uuid, seqNo: int, event: Event) returns (ok: bool)
      requires Valid() && runId in runs
      requires seqNo == |Log(events, runId)| && (event.key.Some? ==> Canonical(event.key.value))
      modifies this`events
      ensures Valid()
      ensures ok <==> !KeyTaken(old(Log(events, runId)), event.key)
      ensures ok ==> Log(events, runId) == old(Log(events, runId)) + [event]
      ensures !ok ==> events == old(events)
      ensures forall r :: r != runId ==> Log(events, r) == old(Log(events, r))
    {
      RefusedIsKeyTaken(events, runId, event.key);
      ok := !Refused(events, runId, seqNo, event.key);
      if ok {
        var row := EventRow(runId, seqNo, event);
        LogAppend(events, row);
        DenseAppend(events, row);
        events := events + [row];
      }
    }

    method UpdateRunStatus(lease: Lease, status: Status, now: int) returns (r: Result<()>)
      requires Valid()
      modifies this`runs, this`events
      ensures Valid()
      ensures Performed(old(View()), View(), lease.runId, r, InvalidState, run => SetStatus(run, lease, now, status))
    {
      ViewAt(runs, events, checkpoints, lease.runId);
      MaxSeqIsLast(events, lease.runId);
      NoKey(Log(events, lease.runId));
      hide TablesOk, ViewOf, Log, Rows, MaxSeq, KeyTaken, Canonical;
      if !LeaseRow(lease, now) {
        return Err(InvalidState);
      }
      var runId := lease.runId;
      var current := runs[runId].status;
      if current == status {
          return Ok(());
      }
      var seqNo := MaxSeq(events, runId) + 1;
      var ok := InsertEvent(runId, seqNo, TransitionEvent(current, status));
      assert ok;
      RunReplaced(runs, events, checkpoints, runId, runs[runId].(status := status));
      runs := runs[runId := runs[runId].(status := status)];
      OneRunTouched(old(runs), old(events), checkpoints, runs, events, checkpoints, runId);
      return Ok(());
    }

    method CompleteRun(lease: Lease, now: int) returns (r: Result<()>)
      requires Valid()
      modifies this`runs, this`events
      ensures Valid()
      ensures Performed(old(View()), View(), lease.runId, r, InvalidState, run => Complete(run, lease, now))
    {
      ViewAt(runs, events, checkpoints, lease.runId);
      MaxSeqIsLast(events, lease.runId);
      NoKey(Log(events, lease.runId));
      hide TablesOk, ViewOf, Log, Rows, MaxSeq, KeyTaken, Canonical;
      if !WritableRow(lease, now) {
        return Err(InvalidState);
      }
      var runId := lease.runId;
      var seqNo := MaxSeq(events, runId) + 1;
      var ok := InsertEvent(runId, seqNo, TransitionEvent(Running, Completed));
      assert ok;
      RunReplaced(runs, events, checkpoints, runId, runs[runId].(status := Completed, owner := None, expires := None));
      runs := runs[runId := runs[runId].(status := Completed, owner := None, expires := None)];
      OneRunTouched(old(runs), old(events), checkpoints, runs, events, checkpoints, runId);
      return Ok(());
    }

    /** The insert loop of append_llm_call_with_tool_intents_with_lease. The rows
        inserted before a refused one are left for the caller to roll back. */
    method InsertBatch(runId: Uuid, response: Payload, intents: seq<(Payload, string)>) returns (ok: bool)
      requires Valid() && runId in runs
      modifies this`events
      ensures Valid()
      ensures InsertAll(old(Log(events, runId)), Batch(response, intents)) == if ok then Ok(Log(events, runId)) else Err(Db)
      ensures forall r :: r != runId ==> Log(events, r) == old(Log(events, r))
    {
      ghost var log, all := Log(events, runId), Batch(response, intents);
      MaxSeqIsLast(events, runId);
      NoKey(log);
      hide TablesOk, Log, Rows, MaxSeq, KeyTaken, Canonical;
      var seqNo := MaxSeq(events, runId) + 1;
      ok := InsertEvent(runId, seqNo, Event(LlmCall, response, None));
      assert all[1..] == IntentEvents(intents);
      var i := 0;
      while i < |intents| && ok
        invariant 0 <= i <= |intents|
        invariant Valid()
        invariant ok ==> seqNo + 1 == |Log(events, runId)|
        invariant ok ==> InsertAll(log, all) == InsertAll(Log(events, runId), all[i + 1..])
        invariant !ok ==> InsertAll(log, all) == Err(Db)
        invariant forall r :: r != runId ==> Log(events, r) == old(Log(events, r))
        decreases |intents| - i, ok
      {
        seqNo := seqNo + 1;
        assert all[i + 1..][0] == all[i + 1] && all[i + 1..][1..] == all[i + 2..];
        ok := InsertEvent(runId, seqNo, Event(ToolCall, intents[i].0, Some(IntentKey(intents[i].1))));
        if ok {
          i := i + 1;
        }
      }
      assert ok ==> all[i + 1..] == [];
    }

    /** Either every event of the batch is committed, or none. */
    method AppendLlmCallWithToolIntents(lease: Lease, response: Payload, intents: seq<(Payload, string)>, now: int)
      returns (r: Result<()>)
      requires Valid()
      modifies this`events
      ensures Valid()
      ensures Performed(old(View()), View(), lease.runId, r, InvalidState,
        run => AppendResponse(run, lease, now, response, intents))
    {
      ViewAt(runs, events, checkpoints, lease.runId);
      hide TablesOk, ViewOf, Log, Rows, InsertAll, Batch;
      if !WritableRow(lease, now) {
        return Err(InvalidState);
      }
      var saved := events;
      var ok := InsertBatch(lease.runId, response, intents);
      if !ok {
        events := saved;
      }
      OneRunTouched(runs, saved, checkpoints, runs, events, checkpoints, lease.runId);
      return if ok then Ok(()) else Err(Db);
    }

    /** insert_event at next_event_seq. */
    method AppendNext(runId: Uuid, event: Event) returns (r: Result<Event>)
      requires Valid() && runId in runs && (event.key.Some? ==> Canonical(event.key.value))
      modifies this`events
      ensures Valid()
      ensures var run := old(View())[runId];
        match Insert(run.log, event)
        case Ok(log) => r == Ok(event) && View() == old(View())[runId := run.(log := log)]
        case Err(error) => r == Err(error) && View() == old(View())
    {
      ViewAt(runs, events, checkpoints, runId);
      MaxSeqIsLast(events, runId);
      hide TablesOk, ViewOf, Log, Rows, MaxSeq, KeyTaken, Canonical;
      var ok := InsertEvent(runId, MaxSeq(events, runId) + 1, event);
      OneRunTouched(runs, old(events), checkpoints, runs, events, checkpoints, runId);
      r := if ok then Ok(event) else Err(Db);
    }

    method AppendEventWithLease(lease: Lease, event: Event, now: int) returns (r: Result<Event>)
      requires Valid() && (event.key.Some? ==> Canonical(event.key.value))
      modifies this`events
      ensures Valid()
      ensures Performed(old(View()), View(), lease.runId, r, InvalidState, run => AppendEvent(run, lease, now, event))
    {
      ViewAt(runs, events, checkpoints, lease.runId);
      hide TablesOk, ViewOf, Log, Rows, Insert, Canonical;
      if !WritableRow(lease, now) {
        return Err(InvalidState);
      }
      r := AppendNext(lease.runId, event);
    }

    method RecordToolResult(lease: Lease, callId: string, content: Value, now: int) returns (r: Result<Event>)
      requires Valid()
      modifies this`events
      ensures Valid()
      ensures Performed(old(View()), View(), lease.runId, r, InvalidState,
        run => RecordResult(run, lease, now, callId, content))
    {
      ViewAt(runs, events, checkpoints, lease.runId);
      hide TablesOk, ViewOf, Log, Rows, FirstOf, Insert;
      if !WritableRow(lease, now) {
        return Err(InvalidState);
      }
      var log := Log(events, lease.runId);
      var intent := FirstOf(log, ToolCall, callId);
      if intent == |log| {
        return Err(InvalidState);
      }
      var name := log[intent].payload.Name();
      if name.None? {
        return Err(Db);
      }
      if name.value == CHECKPOINT_TOOL {
        return Err(InvalidState);
      }
      var payload := Outcome(callId, content);
      var existing := FirstOf(log, ToolResult, callId);
      if existing < |log| {
        if existing <= intent || log[existing].payload != payload {
          return Err(InvalidState);
        }
        return Ok(log[existing]);
      }
      r := AppendNext(lease.runId, Event(ToolResult, payload, Some(ResultKey(callId))));
    }

    method FindPendingToolCalls(lease: Lease, now: int) returns (r: Result<seq<Event>>)
      requires Valid()
      ensures r == if lease.runId in View() then FindPending(View()[lease.runId], lease, now) else Err(InvalidState)
    {
      if !WritableRow(lease, now) {
        return Err(InvalidState);
      }
      return Ok(PendingCalls(Log(events, lease.runId)));
    }

    // ---------- Checkpoints ----------

    /** The INSERT of the candidate row and its event, or neither. */
    method WriteProposal(runId: Uuid, row: Checkpoint) returns (r: Result<Checkpoint>)
      requires Valid() && runId in runs && row.id == |checkpoints| + 1
      modifies this`events, this`checkpoints
      ensures Valid()
      ensures var run := old(View())[runId];
        match Insert(run.log, ProposedEvent(row))
        case Ok(log) => r == Ok(row)
          && View() == old(View())[runId := run.(log := log, checkpoints := run.checkpoints + [row])]
        case Err(error) => r == Err(error) && View() == old(View())
    {
      RowsAppend(checkpoints, CheckpointRow(runId, row));
      RowAdded(runs, events, checkpoints, CheckpointRow(runId, row));
      MaxSeqIsLast(events, runId);
      hide TablesOk, Log, Rows, MaxSeq, KeyTaken, Canonical;
      var saved := checkpoints;
      checkpoints := checkpoints + [CheckpointRow(runId, row)];
      var ok := InsertEvent(runId, MaxSeq(events, runId) + 1, ProposedEvent(row));
      if !ok {
        checkpoints := saved;
        return Err(Db);
      }
      OneRunTouched(runs, old(events), saved, runs, events, checkpoints, runId);
      return Ok(row);
    }

    /** The queries before the INSERT. */
    method CheckProposal(lease: Lease, callId: string, now: int) returns (r: Result<(int, int)>)
      requires Valid()
      ensures r == if lease.runId in View() then Proposable(View()[lease.runId], lease, now, callId) else Err(InvalidState)
    {
      ViewAt(runs, events, checkpoints, lease.runId);
      MaxSeqIsLast(events, lease.runId);
      hide TablesOk, ViewOf, Log, Rows, MaxSeq, PendingStandalone, HasCandidate, ViolatesUnique, NextRound;
      if !WritableRow(lease, now) {
        return Err(InvalidState);
      }
      if !PendingStandalone(Log(events, lease.runId), callId) {
        return Err(InvalidState);
      }
      var rows := Rows(checkpoints, lease.runId);
      if HasCandidate(rows) {
        return Err(InvalidState);
      }
      var round := NextRound(rows);
      var seqNo := MaxSeq(events, lease.runId) + 1;
      if ViolatesUnique(rows, round, callId) {
        return Err(Db);
      }
      return Ok((round, seqNo - 1));
    }

    method ProposeCheckpoint(lease: Lease, callId: string, state: CheckpointState, now: int)
      returns (r: Result<Checkpoint>)
      requires Valid()
      modifies this`events, this`checkpoints
      ensures Valid()
      ensures Performed(old(View()), View(), lease.runId, r, InvalidState,
        run => Propose(run, lease, now, callId, state, old(|checkpoints|) + 1))
      ensures lease.runId in old(View()) ==> FreshId(old(View())[lease.runId], old(|checkpoints|) + 1)
    {
      ViewAt(runs, events, checkpoints, lease.runId);
      NextIdFresh(runs, events, checkpoints, lease.runId);
      hide TablesOk, ViewOf, Log, Rows, FreshId, Insert, Proposable, ProposedEvent;
      var slot := CheckProposal(lease, callId, now);
      if slot.Err? {
        return Err(slot.error);
      }
      var (round, basedOn) := slot.value;
      r := WriteProposal(lease.runId, Checkpoint(|checkpoints| + 1, round, callId, basedOn, None, Candidate, state, None));
    }

    /** The UPDATE and the two inserts of decide_checkpoint_with_lease. */
    method WriteDecision(k: nat, accepted: bool, verification: Value) returns (ok: bool)
      requires Valid() && k < |checkpoints| && checkpoints[k].runId in runs
      modifies this`events, this`checkpoints
      ensures Valid()
      ensures var runId, log := old(checkpoints)[k].runId, old(Log(events, checkpoints[k].runId));
        var row := DecidedRow(old(checkpoints)[k].checkpoint, |log|, accepted, verification);
        && checkpoints == old(checkpoints)[k := CheckpointRow(runId, row)]
        && InsertAll(log, [DecisionEvent(row.id, accepted, verification), OutcomeEvent(row, accepted, verification)])
             == if ok then Ok(Log(events, runId)) else Err(Db)
      ensures forall r :: r != old(checkpoints)[k].runId ==> Log(events, r) == old(Log(events, r))
    {
      var runId, id := checkpoints[k].runId, checkpoints[k].checkpoint.id;
      MaxSeqIsLast(events, runId);
      hide TablesOk, Log, Rows, MaxSeq, KeyTaken, Canonical;
      var seqNo := MaxSeq(events, runId) + 1;
      var row := DecidedRow(checkpoints[k].checkpoint, seqNo, accepted, verification);
      RowReplaced(runs, events, checkpoints, k, row);
      checkpoints := checkpoints[k := CheckpointRow(runId, row)];
      var decision, outcome := DecisionEvent(id, accepted, verification), OutcomeEvent(row, accepted, verification);
      InsertTwo(Log(events, runId), decision, outcome);
      ok := InsertEvent(runId, seqNo, decision);
      if ok {
        ok := InsertEvent(runId, seqNo + 1, outcome);
      }
    }

    method DecideCheckpoint(lease: Lease, id: int, accepted: bool, verification: Value, now: int)
      returns (r: Result<Checkpoint>)
      requires Valid()
      modifies this`events, this`checkpoints
      ensures Valid()
      ensures Performed(old(View()), View(), lease.runId, r, InvalidState,
        run => Decide(run, lease, now, id, accepted, verification))
    {
      ViewAt(runs, events, checkpoints, lease.runId);
      CandidateAtIsIndex(checkpoints, lease.runId, id);
      hide TablesOk, ViewOf, Log, Rows, InsertAll;
      if !WritableRow(lease, now) {
        return Err(InvalidState);
      }
      var k := CandidateAt(checkpoints, lease.runId, id);
      if k == |checkpoints| {
        return Err(InvalidState);
      }
      r := CommitDecision(lease.runId, k, accepted, verification);
    }

    /** Commits a decision, or rolls all of it back. */
    method CommitDecision(runId: Uuid, k: nat, accepted: bool, verification: Value) returns (r: Result<Checkpoint>)
      requires Valid() && runId in runs && k < |checkpoints|
      requires k == CandidateAt(checkpoints, runId, checkpoints[k].checkpoint.id)
      modifies this`events, this`checkpoints
      ensures Valid()
      ensures var run := old(View())[runId];
        var id := old(checkpoints)[k].checkpoint.id;
        var p := CandidateIndex(run.checkpoints, id);
        && p < |run.checkpoints|
        && var row := DecidedRow(run.checkpoints[p], |run.log|, accepted, verification);
           match InsertAll(run.log, [DecisionEvent(id, accepted, verification), OutcomeEvent(row, accepted, verification)])
           case Ok(log) => r == Ok(row)
             && View() == old(View())[runId := run.(log := log, checkpoints := run.checkpoints[p := row])]
           case Err(error) => r == Err(error) && View() == old(View())
    {
      ghost var log := Log(events, runId);
      CandidatePlace(checkpoints, runId, checkpoints[k].checkpoint.id,
                     DecidedRow(checkpoints[k].checkpoint, |log|, accepted, verification));
      hide TablesOk, Log, Rows, InsertAll;
      var saved, savedCheckpoints := events, checkpoints;
      var ok := WriteDecision(k, accepted, verification);
      r := if ok then Ok(checkpoints[k].checkpoint) else Err(Db);
      if ok {
        OneRunTouched(runs, saved, savedCheckpoints, runs, events, checkpoints, runId);
      } else {
        events, checkpoints := saved, savedCheckpoints;
      }
    }

    method GetCheckpointCandidate(lease: Lease, id: int, now: int) returns (r: Result<Checkpoint>)
      requires Valid()
      ensures r == if lease.runId in View() then GetCandidate(View()[lease.runId], lease, now, id) else Err(InvalidState)
    {
      if !WritableRow(lease, now) {
        return Err(InvalidState);
      }
      CandidateAtIsIndex(checkpoints, lease.runId, id);
      var k := CandidateAt(checkpoints, lease.runId, id);
      if k == |checkpoints| {
        return Err(InvalidState);
      }
      return Ok(checkpoints[k].checkpoint);
    }

    method GetPendingCheckpoint(lease: Lease, now: int) returns (r: Result<Option<Checkpoint>>)
      requires Valid()
      ensures r == if lease.runId in View() then GetPending(View()[lease.runId], lease, now) else Err(InvalidState)
    {
      if !WritableRow(lease, now) {
        return Err(InvalidState);
      }
      return Ok(LatestWith(Rows(checkpoints, lease.runId), Candidate));
    }

    // ---------- Steps and timers ----------

    method ClaimStep(runId: Uuid, name: string, owner: Uuid) returns (r: Result<Option<Value>>)
      modifies this`steps
      ensures runId !in runs ==> r == Err(NotFound) && steps == old(steps)
      ensures runId in runs ==>
        var row := if (runId, name) in old(steps) then Some(old(steps)[(runId, name)]) else None;
        && steps == old(steps)[(runId, name) := ClaimRow(row, owner).0]
        && match ClaimRow(row, owner).1
           case Cached(result) => r == Ok(Some(result))
           case Busy => r == Err(InvalidState)
           case Granted => r == Ok(None)
    {
      if runId !in runs {
        return Err(NotFound);
      }
      if (runId, name) !in steps {
        steps := steps[(runId, name) := StepRow(StepRunning, Some(owner), None)];
        return Ok(None);
      }
      var row := steps[(runId, name)];
      if row.status.StepCompleted? && row.result.Some? {
        return Ok(Some(row.result.value));
      }
      if row.status.StepRunning? {
        return Err(InvalidState);
      }
      if row.status.StepPending? {
        steps := steps[(runId, name) := row.(status := StepRunning, owner := Some(owner))];
      }
      return Ok(None);
    }

    method CompleteStep(runId: Uuid, name: string, owner: Uuid, result: Value) returns (r: Result<()>)
      modifies this`steps
      ensures var row := if (runId, name) in old(steps) then Some(old(steps)[(runId, name)]) else None;
        if HoldsClaim(row, owner) then
          r == Ok(()) && steps == old(steps)[(runId, name) := CompletedRow(row.value, result)]
        else
          r == Err(InvalidState) && steps == old(steps)
    {
      if (runId, name) in steps && HoldsClaim(Some(steps[(runId, name)]), owner) {
        steps := steps[(runId, name) := CompletedRow(steps[(runId, name)], result)];
        return Ok(());
      }
      return Err(InvalidState);
    }

    method RecoverSteps(runId: Uuid) returns (r: Result<()>)
      modifies this`steps
      ensures runId !in runs ==> r == Err(NotFound) && steps == old(steps)
      ensures runId in runs ==> r == Ok(()) && steps.Keys == old(steps).Keys
      ensures runId in runs ==> forall key :: key in steps ==>
        steps[key] == if key.0 == runId then ReleasedRow(old(steps)[key]) else old(steps)[key]
    {
      if runId !in runs {
        return Err(NotFound);
      }
      steps := map key | key in steps :: if key.0 == runId then ReleasedRow(steps[key]) else steps[key];
      return Ok(());
    }

    /** The clock is read before the transaction begins. */
    method ScheduleTimer(runId: Uuid, name: string, delay: Duration, now: int) returns (r: Result<int>)
      modifies this`timers
      ensures DurationToMillis(delay).Err? || CheckedAdd(now, DurationToMillis(delay).value).None? ==>
        r.Err? && timers == old(timers)
      ensures DurationToMillis(delay).Ok? && CheckedAdd(now, DurationToMillis(delay).value).Some? ==>
        if runId !in runs then r == Err(NotFound) && timers == old(timers)
        else
          var row := if (runId, name) in old(timers) then Some(old(timers)[(runId, name)]) else None;
          var timer := ScheduledRow(row, now + DurationToMillis(delay).value);
          r == Ok(timer.wakeAt) && timers == old(timers)[(runId, name) := timer]
    {
      var delayMs := DurationToMillis(delay);
      if delayMs.Err? {
        return Err(delayMs.error);
      }
      var wakeAt := CheckedAdd(now, delayMs.value);
      if wakeAt.None? {
        return Err(InvalidState);
      }
      if runId !in runs {
        return Err(NotFound);
      }
      if (runId, name) in timers {
        return Ok(timers[(runId, name)].wakeAt);
      }
      timers := timers[(runId, name) := TimerRow(wakeAt.value, false)];
      return Ok(wakeAt.value);
    }

    method CompleteTimer(runId: Uuid, name: string)
      modifies this`timers
      ensures timers == if (runId, name) in old(timers)
        then old(timers)[(runId, name) := old(timers)[(runId, name)].(completed := true)] else old(timers)
    {
      if (runId, name) in timers {
        timers := timers[(runId, name) := timers[(runId, name)].(completed := true)];
      }
    }
  }
}

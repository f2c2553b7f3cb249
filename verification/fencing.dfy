/** Leases over whole histories: stale holders are fenced off, and a holder that
    renews in time is never displaced. */
module Fencing {
  import opened Types
  import opened Clock
  import opened Runs
  import opened Invariant
  import opened History

  // ---------- Fencing ----------

  /** A lease works only while the run still has its epoch: whatever the clock
      says and whatever is written, a transaction under another epoch changes
      nothing in the run. */
  lemma {:induction false} OtherEpochHasNoEffect(run: Run, op: Op)
    requires op.ByLease() && op.lease.epoch != run.epoch
    ensures Next(run, op) == run
  {
  }

  predicate IsClaim(op: Op) {
    op.DoClaim? || op.DoClaimNext?
  }

  /** Once a claim has taken effect, no lease with a smaller epoch than the
      claim's ever changes the run again: no interleaving of other transactions,
      raw appends included, and no clock reading brings it back. */
  lemma {:induction false} ClaimFencesForever(run: Run, claim: Op, ops: seq<Op>, op: Op)
    requires IsClaim(claim) && Next(run, claim) != run
    requires op.ByLease() && op.lease.epoch <= run.epoch
    ensures Next(run, claim).epoch == run.epoch + 1
    ensures Next(Exec(Next(run, claim), ops), op) == Exec(Next(run, claim), ops)
  {
    ExecExtends(Next(run, claim), ops);
    OtherEpochHasNoEffect(Exec(Next(run, claim), ops), op);
  }

  /** The epoch under which an operation writes. */
  function WriterEpoch(before: Run, op: Op): int {
    if op.ByLease() then op.lease.epoch else before.epoch + 1
  }

  function Appended(before: Run, after: Run): nat {
    if |before.log| <= |after.log| then |after.log| - |before.log| else 0
  }

  /** The log's events labelled with the epochs of their writers. */
  function Writers(run: Run, ops: seq<Op>): seq<int> {
    if ops == [] then seq(|run.log|, _ => run.epoch)
    else
      var before, op := Exec(run, ops[..|ops| - 1]), ops[|ops| - 1];
      Writers(run, ops[..|ops| - 1]) + seq(Appended(before, Next(before, op)), _ => WriterEpoch(before, op))
  }

  /** Along the log the writers' epochs never decrease: a fenced writer's events
      never land after its successor's. */
  lemma {:induction false} WritersInEpochOrder(run: Run, ops: seq<Op>)
    ensures |Writers(run, ops)| == |Exec(run, ops).log|
    ensures forall i, j :: 0 <= i <= j < |Writers(run, ops)| ==> Writers(run, ops)[i] <= Writers(run, ops)[j]
    ensures forall i :: 0 <= i < |Writers(run, ops)| ==> Writers(run, ops)[i] <= Exec(run, ops).epoch
  {
    if ops != [] {
      hide Next;
      var init, op := ops[..|ops| - 1], ops[|ops| - 1];
      var before := Exec(run, init);
      var after := Next(before, op);
      WritersInEpochOrder(run, init);
      NextExtends(before, op);
      if after.log != before.log {
        WriterHoldsEpoch(before, op);
      }
      assert Exec(run, ops) == after;
      assert Writers(run, ops) == Writers(run, init) + seq(Appended(before, after), _ => WriterEpoch(before, op));
    }
  }

  lemma {:induction false} WriterHoldsEpoch(before: Run, op: Op)
    requires Next(before, op).log != before.log
    ensures WriterEpoch(before, op) == Next(before, op).epoch
  {
    if op.ByLease() && op.lease.epoch != before.epoch {
      OtherEpochHasNoEffect(before, op);
    }
  }

  // ---------- What a holder may rely on between two reads ----------

  predicate OtherEpoch(op: Op, epoch: int) {
    op.ByLease() && op.lease.epoch != epoch
  }

  /** A transaction under another epoch, or one that only moves the lease. */
  predicate LeaseOnly(op: Op, epoch: int) {
    op.ByLease() && (op.lease.epoch != epoch || op.DoRenew? || op.DoRelease?)
  }

  lemma {:induction false} LeaseOnlyKeeps(run: Run, ops: seq<Op>)
    requires forall i :: 0 <= i < |ops| ==> LeaseOnly(ops[i], run.epoch)
    ensures SameContents(run, Exec(run, ops)) && Exec(run, ops).epoch == run.epoch
    ensures (forall i :: 0 <= i < |ops| ==> OtherEpoch(ops[i], run.epoch)) ==> Exec(run, ops) == run
  {
    if ops != [] {
      LeaseOnlyKeeps(run, ops[..|ops| - 1]);
      var before, op := Exec(run, ops[..|ops| - 1]), ops[|ops| - 1];
      hide Next;
      if OtherEpoch(op, run.epoch) {
        OtherEpochHasNoEffect(before, op);
      } else {
        MovesLeaseOnly(before, op);
      }
    }
  }

  lemma {:induction false} MovesLeaseOnly(run: Run, op: Op)
    requires op.DoRenew? || op.DoRelease?
    ensures SameContents(run, Next(run, op)) && Next(run, op).epoch == run.epoch
  {
  }

  /** state() is as good as atomic as long as nobody claims the run and its
      holder does no more than renew: whatever stale contexts try, the two reads
      see the same checkpoints and events. */
  lemma {:induction false} UnclaimedReadIsAtomic(run: Run, ops: seq<Op>)
    requires Inv(run) && forall i :: 0 <= i < |ops| ==> LeaseOnly(ops[i], run.epoch)
    ensures var returned, later := LatestWith(run.checkpoints, Accepted), Exec(run, ops);
      && returned == LatestWith(later.checkpoints, Accepted)
      && EventsAfter(later.log, AfterSeq(returned)) == EventsAfter(run.log, AfterSeq(returned))
      && !AcceptedEventIn(EventsAfter(later.log, AfterSeq(returned)))
  {
    hide Inv, Exec;
    LeaseOnlyKeeps(run, ops);
    AtomicReadIsLatest(run);
  }

  lemma {:induction false} ClaimRaisesEpoch(run: Run, op: Op)
    requires IsClaim(op)
    ensures Next(run, op) == run || Next(run, op).epoch == run.epoch + 1
  {
  }

  /** All others may do anything, but under this epoch the lease only moves. */
  predicate OnlyMovesLease(op: Op, epoch: int) {
    op.ByLease() && op.lease.epoch == epoch ==> op.DoRenew? || op.DoRelease?
  }

  /** No claim has taken effect if the epoch is the same at both ends. */
  lemma {:induction false} SameEpochKeeps(run: Run, ops: seq<Op>)
    requires forall i :: 0 <= i < |ops| ==> OnlyMovesLease(ops[i], run.epoch)
    requires Exec(run, ops).epoch == run.epoch
    ensures SameContents(run, Exec(run, ops))
  {
    if ops != [] {
      var before, op := Exec(run, ops[..|ops| - 1]), ops[|ops| - 1];
      hide Next;
      ExecExtends(run, ops[..|ops| - 1]);
      NextExtends(before, op);
      SameEpochKeeps(run, ops[..|ops| - 1]);
      if IsClaim(op) {
        ClaimRaisesEpoch(before, op);
      } else if op.lease.epoch != run.epoch {
        OtherEpochHasNoEffect(before, op);
      } else {
        MovesLeaseOnly(before, op);
      }
    }
  }

  /** What a caller can check: if its lease can still be renewed after state() has
      returned, and the context itself did no more than renew meanwhile, then
      state() answered as one atomic read, whatever all others did. */
  lemma {:induction false} RenewableReadIsAtomic(run: Run, lease: Lease, ops: seq<Op>, now: int, ttlMs: int)
    requires Inv(run) && lease.epoch <= run.epoch
    requires forall i :: 0 <= i < |ops| ==> OnlyMovesLease(ops[i], lease.epoch)
    requires Renew(Exec(run, ops), lease, now, ttlMs).Commit?
    ensures var returned, later := LatestWith(run.checkpoints, Accepted), Exec(run, ops);
      && SameContents(run, later)
      && returned == LatestWith(later.checkpoints, Accepted)
      && !AcceptedEventIn(EventsAfter(later.log, AfterSeq(returned)))
  {
    ExecExtends(run, ops);
    assert Exec(run, ops).epoch == run.epoch == lease.epoch;
    hide Inv, Exec, Renew;
    SameEpochKeeps(run, ops);
    AtomicReadIsLatest(run);
  }

  // ---------- Timed exclusivity ----------

  /** At every clock reading an open run is either its holder's to renew or a
      worker's to claim: never both, and never neither. */
  lemma {:induction false} HolderOrWorker(run: Run, lease: Lease, now: int, ttlMs: int)
    requires LeaseOk(run) && !Terminal(run.status) && CheckedAdd(now, ttlMs).Some?
    requires run.owner == Some(lease.owner) && run.epoch == lease.epoch
    ensures Renew(run, lease, now, ttlMs).Commit? <==> !Claimable(run, now)
  {
  }

  /** A transaction and the instant at which it reads the clock. */
  datatype Timed = Timed(at: int, op: Op)

  predicate ByHolder(op: Op, lease: Lease) {
    op.ByLease() && op.lease.owner == lease.owner && op.lease.epoch == lease.epoch
  }

  predicate ReadsClockAt(op: Op, at: int) {
    op.DoRelease? || op.now == MillisAt(at)
  }

  /** The instant of the holder's last renewal, or of its claim. */
  function LastRenewal(history: seq<Timed>, lease: Lease, claimed: int): int {
    if history == [] then claimed
    else
      var last := history[|history| - 1];
      if last.op.DoRenew? && ByHolder(last.op, lease) then last.at
      else LastRenewal(history[..|history| - 1], lease, claimed)
  }

  /** The holder keeps its run open and renews for the same TTL; nobody forces a
      recovery; all other transactions are allowed. */
  predicate Allowed(op: Op, lease: Lease, ttlMs: int) {
    && (ByHolder(op, lease) ==>
          && !op.DoRelease? && !op.DoComplete?
          && (op.DoSetStatus? ==> op.status == Running)
          && (op.DoRenew? ==> op.ttlMs == ttlMs))
    && (op.DoClaim? ==> !op.recover)
  }

  /** No renewal is overdue when a transaction reads the clock: the last one is
      at most the TTL less one millisecond ago. */
  predicate Punctual(history: seq<Timed>, lease: Lease, claimed: int, ttl: Duration)
    requires DurationToMillis(ttl).Ok?
  {
    var ttlMs := DurationToMillis(ttl).value;
    forall i :: 0 <= i < |history| ==>
      && ReadsClockAt(history[i].op, history[i].at)
      && Allowed(history[i].op, lease, ttlMs)
      && history[i].at <= LastRenewal(history[..i], lease, claimed) + ttl - NANOS_PER_MILLI
      && I64_MIN <= MillisAt(history[i].at) && MillisAt(history[i].at) + ttlMs <= I64_MAX
  }

  function Ops(history: seq<Timed>): seq<Op> {
    seq(|history|, i requires 0 <= i < |history| => history[i].op)
  }

  predicate Held(run: Run, lease: Lease, renewed: int, ttlMs: int) {
    && run.owner == Some(lease.owner)
    && run.epoch == lease.epoch
    && run.expires == Some(MillisAt(renewed) + ttlMs)
    && !Terminal(run.status)
  }

  lemma {:induction false} StillLive(at: int, renewed: int, ttl: Duration)
    requires DurationToMillis(ttl).Ok?
    requires at <= renewed + ttl - NANOS_PER_MILLI
    ensures MillisAt(at) < MillisAt(renewed) + DurationToMillis(ttl).value
  {
    var ttlMs := DurationToMillis(ttl).value;
    DurationRoundsUp(ttl);
    LeaseOutlivesGap(at - renewed, ttlMs);
    assert MillisAt(renewed + (at - renewed)) < MillisAt(renewed) + ttlMs;
  }

  /** One transaction leaves a held run with its holder; a renewal by the holder
      succeeds, and no claim does. */
  lemma {:induction false} HeldStep(run: Run, op: Op, lease: Lease, renewed: int, at: int, ttlMs: int)
    requires Held(run, lease, renewed, ttlMs) && Allowed(op, lease, ttlMs) && ReadsClockAt(op, at)
    requires MillisAt(at) < MillisAt(renewed) + ttlMs
    requires I64_MIN <= MillisAt(at) + ttlMs <= I64_MAX
    ensures Held(Next(run, op), lease, if op.DoRenew? && ByHolder(op, lease) then at else renewed, ttlMs)
    ensures ByHolder(op, lease) && op.DoRenew? ==> Renew(run, op.lease, op.now, op.ttlMs).Commit?
    ensures op.DoClaim? ==> Claim(run, 0, op.owner, op.now, op.ttlMs, op.recover).Abort?
    ensures op.DoClaimNext? ==> !Claimable(run, op.now)
  {
    hide Insert, InsertAll, PendingStandalone, FirstOf, CandidateIndex;
  }

  lemma {:induction false} PunctualInit(history: seq<Timed>, lease: Lease, claimed: int, ttl: Duration)
    requires history != [] && DurationToMillis(ttl).Ok? && Punctual(history, lease, claimed, ttl)
    ensures Punctual(history[..|history| - 1], lease, claimed, ttl)
    ensures Ops(history)[..|history| - 1] == Ops(history[..|history| - 1])
  {
    var init := history[..|history| - 1];
    assert forall i :: 0 <= i < |init| ==> init[i] == history[i] && init[..i] == history[..i];
  }

  /** A holder whose renewals are punctual keeps the run, whatever other contexts
      and workers try in between. */
  lemma {:induction false} HolderKeepsRun(run: Run, lease: Lease, claimed: int, ttl: Duration, history: seq<Timed>)
    requires DurationToMillis(ttl).Ok? && Held(run, lease, claimed, DurationToMillis(ttl).value)
    requires Punctual(history, lease, claimed, ttl)
    ensures Held(Exec(run, Ops(history)), lease, LastRenewal(history, lease, claimed), DurationToMillis(ttl).value)
  {
    hide Held, Allowed, Next;
    if history != [] {
      var init, last := history[..|history| - 1], history[|history| - 1];
      PunctualInit(history, lease, claimed, ttl);
      HolderKeepsRun(run, lease, claimed, ttl, init);
      StillLive(last.at, LastRenewal(init, lease, claimed), ttl);
      HeldStep(Exec(run, Ops(init)), last.op, lease, LastRenewal(init, lease, claimed), last.at,
               DurationToMillis(ttl).value);
    } else {
      assert Ops(history) == [];
    }
  }

  /** In such a history every renewal by the holder succeeds, every open() is
      refused and no worker finds the run recoverable. */
  lemma {:induction false} TimedExclusivity(run: Run, lease: Lease, claimed: int, ttl: Duration, history: seq<Timed>, i: nat)
    requires DurationToMillis(ttl).Ok? && Held(run, lease, claimed, DurationToMillis(ttl).value)
    requires Punctual(history, lease, claimed, ttl) && i < |history|
    ensures var before, op := Exec(run, Ops(history[..i])), history[i].op;
      && (ByHolder(op, lease) && op.DoRenew? ==> Renew(before, op.lease, op.now, op.ttlMs).Commit?)
      && (op.DoClaim? ==> Claim(before, 0, op.owner, op.now, op.ttlMs, op.recover).Abort?)
      && (op.DoClaimNext? ==> !Claimable(before, op.now))
  {
    hide Held, Allowed, Next;
    var prefix := history[..i];
    assert forall j :: 0 <= j < i ==> prefix[j] == history[j] && prefix[..j] == history[..j];
    HolderKeepsRun(run, lease, claimed, ttl, prefix);
    StillLive(history[i].at, LastRenewal(prefix, lease, claimed), ttl);
    HeldStep(Exec(run, Ops(prefix)), history[i].op, lease, LastRenewal(prefix, lease, claimed), history[i].at,
             DurationToMillis(ttl).value);
  }

  // ---------- The same from a clock that does not go back ----------

  predicate IsRenewal(op: Op, lease: Lease) {
    op.DoRenew? && ByHolder(op, lease)
  }

  predicate Monotone(history: seq<Timed>, claimed: int) {
    && (forall i :: 0 <= i < |history| ==> claimed <= history[i].at)
    && (forall i, j :: 0 <= i <= j < |history| ==> history[i].at <= history[j].at)
  }

  /** Successive renewals, the claim being the first, are at most the TTL less one
      millisecond apart. */
  predicate SteadyRenewals(history: seq<Timed>, lease: Lease, claimed: int, ttl: Duration) {
    forall i :: 0 <= i < |history| && IsRenewal(history[i].op, lease) ==>
      history[i].at <= LastRenewal(history[..i], lease, claimed) + ttl - NANOS_PER_MILLI
  }

  /** Each transaction reads the clock once and is one the holder can live with. */
  predicate Orderly(history: seq<Timed>, lease: Lease, ttl: Duration)
    requires DurationToMillis(ttl).Ok?
  {
    var ttlMs := DurationToMillis(ttl).value;
    forall i :: 0 <= i < |history| ==>
      && ReadsClockAt(history[i].op, history[i].at)
      && Allowed(history[i].op, lease, ttlMs)
      && I64_MIN <= MillisAt(history[i].at) && MillisAt(history[i].at) + ttlMs <= I64_MAX
  }

  lemma {:induction false} BeforeNextRenewal(history: seq<Timed>, lease: Lease, claimed: int, ttl: Duration, i: nat)
    requires Monotone(history, claimed) && SteadyRenewals(history, lease, claimed, ttl)
    requires i < |history| && IsRenewal(history[|history| - 1].op, lease)
    ensures history[i].at <= LastRenewal(history[..i], lease, claimed) + ttl - NANOS_PER_MILLI
    decreases |history| - i
  {
    if !IsRenewal(history[i].op, lease) {
      BeforeNextRenewal(history, lease, claimed, ttl, i + 1);
      assert history[..i + 1][..i] == history[..i];
    }
  }

  /** Up to a renewal, bounded gaps between renewals keep every transaction in
      between from finding the lease overdue. */
  lemma {:induction false} SteadyIsPunctual(history: seq<Timed>, lease: Lease, claimed: int, ttl: Duration)
    requires DurationToMillis(ttl).Ok? && Orderly(history, lease, ttl)
    requires Monotone(history, claimed) && SteadyRenewals(history, lease, claimed, ttl)
    requires history != [] ==> IsRenewal(history[|history| - 1].op, lease)
    ensures Punctual(history, lease, claimed, ttl)
  {
    hide LastRenewal, IsRenewal, Allowed;
    forall i | 0 <= i < |history|
      ensures history[i].at <= LastRenewal(history[..i], lease, claimed) + ttl - NANOS_PER_MILLI
    {
      BeforeNextRenewal(history, lease, claimed, ttl, i);
    }
  }

  /** With a clock that does not go back and nobody forcing a recovery, a holder
      whose successive renewals are at most the TTL less one millisecond apart
      has each of them succeed, and up to the last of them every open() is
      refused and no worker finds the run recoverable. */
  lemma {:induction false} SteadyExclusivity(run: Run, lease: Lease, claimed: int, ttl: Duration, history: seq<Timed>, i: nat)
    requires DurationToMillis(ttl).Ok? && Held(run, lease, claimed, DurationToMillis(ttl).value)
    requires Orderly(history, lease, ttl)
    requires Monotone(history, claimed) && SteadyRenewals(history, lease, claimed, ttl)
    requires i < |history| && IsRenewal(history[|history| - 1].op, lease)
    ensures var before, op := Exec(run, Ops(history[..i])), history[i].op;
      && (IsRenewal(op, lease) ==> Renew(before, op.lease, op.now, op.ttlMs).Commit?)
      && (op.DoClaim? ==> Claim(before, 0, op.owner, op.now, op.ttlMs, op.recover).Abort?)
      && (op.DoClaimNext? ==> !Claimable(before, op.now))
    ensures Held(Exec(run, Ops(history)), lease, history[|history| - 1].at, DurationToMillis(ttl).value)
  {
    hide Held, Orderly, Punctual, Claim, Renew, Claimable, Monotone, SteadyRenewals;
    SteadyIsPunctual(history, lease, claimed, ttl);
    TimedExclusivity(run, lease, claimed, ttl, history, i);
    HolderKeepsRun(run, lease, claimed, ttl, history);
  }

  lemma {:induction false} HeldStepKeeps(run: Run, op: Op, lease: Lease, renewed: int, at: int, ttlMs: int)
    requires Held(run, lease, renewed, ttlMs) && Allowed(op, lease, ttlMs) && ReadsClockAt(op, at)
    requires MillisAt(at) < MillisAt(renewed) + ttlMs
    requires ByHolder(op, lease) ==> op.DoRenew?
    ensures SameContents(run, Next(run, op))
  {
    hide Insert, InsertAll, PendingStandalone, FirstOf, CandidateIndex;
  }

  /** A holder that only renews, and does so in time, finds its run's events and
      checkpoints as they were: between two reads of its state(), say. */
  lemma {:induction false} HolderReadIsAtomic(run: Run, lease: Lease, claimed: int, ttl: Duration, history: seq<Timed>)
    requires DurationToMillis(ttl).Ok? && Held(run, lease, claimed, DurationToMillis(ttl).value)
    requires Punctual(history, lease, claimed, ttl)
    requires forall i :: 0 <= i < |history| && ByHolder(history[i].op, lease) ==> history[i].op.DoRenew?
    ensures SameContents(run, Exec(run, Ops(history)))
  {
    hide Held, Allowed, Next;
    if history != [] {
      var init, last := history[..|history| - 1], history[|history| - 1];
      PunctualInit(history, lease, claimed, ttl);
      HolderReadIsAtomic(run, lease, claimed, ttl, init);
      HolderKeepsRun(run, lease, claimed, ttl, init);
      StillLive(last.at, LastRenewal(init, lease, claimed), ttl);
      HeldStepKeeps(Exec(run, Ops(init)), last.op, lease, LastRenewal(init, lease, claimed), last.at, DurationToMillis(ttl).value);
    } else {
      assert Ops(history) == [];
    }
  }
}

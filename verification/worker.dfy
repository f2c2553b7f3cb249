/** ResumeWorker::run: bounded dispatch of claimed runs, and its claiming loop. */
module Worker {
  import opened Types
  import opened Clock
  import opened Runs
  import opened Store
  import Invariant

  /** What select! takes up next. The shutdown comes when the script ends. */
  datatype Wake = Tick | HandlerDone

  type Claims = nat -> Result<Option<Lease>>

  /** The contexts among the first n answers of claim_next_recoverable. */
  function Claimed(claims: Claims, n: nat): seq<Lease> {
    if n == 0 then []
    else
      match claims(n - 1)
      case Ok(Some(lease)) => Claimed(claims, n - 1) + [lease]
      case _ => Claimed(claims, n - 1)
  }

  predicate NoFailure(claims: Claims, n: nat) {
    forall i :: 0 <= i < n ==> claims(i).Ok?
  }

  /** The handlers are numbered 0 to n - 1. */
  ghost predicate Numbered(tasks: set<nat>, joined: set<nat>, n: nat) {
    forall i: nat :: i in tasks || i in joined <==> i < n
  }

  /** How far the loop has come: the claims made, the handlers running and
      joined, and the error of the last claim if it failed. */
  datatype Tally = Tally(calls: nat, running: nat, joined: nat, failure: Option<Error>)

  /** One tick: claims while a slot is free, until there is none to claim. */
  function Claiming(claims: Claims, t: Tally, max: nat): Tally
    decreases max - t.running
  {
    if t.running >= max then t
    else
      match claims(t.calls)
      case Ok(Some(_)) => Claiming(claims, t.(calls := t.calls + 1, running := t.running + 1), max)
      case Ok(None) => t.(calls := t.calls + 1)
      case Err(error) => t.(calls := t.calls + 1, failure := Some(error))
  }

  function Woken(claims: Claims, t: Tally, wake: Wake, max: nat): Tally {
    if t.failure.Some? then t
    else
      match wake
      case Tick => Claiming(claims, t, max)
      case HandlerDone => if t.running > 0 then t.(running := t.running - 1, joined := t.joined + 1) else t
  }

  /** After a script of ticks and finished handlers. */
  function Scripted(claims: Claims, script: seq<Wake>, max: nat): Tally {
    if script == [] then Tally(0, 0, 0, None)
    else Woken(claims, Scripted(claims, script[..|script| - 1], max), script[|script| - 1], max)
  }

  /** The most handlers that run at once. */
  function Peak(claims: Claims, script: seq<Wake>, max: nat): nat {
    if script == [] then 0
    else
      var rest, running := Peak(claims, script[..|script| - 1], max), Scripted(claims, script, max).running;
      if running > rest then running else rest
  }

  lemma {:induction false} ScriptedStep(claims: Claims, script: seq<Wake>, i: nat, max: nat)
    requires i < |script|
    ensures Scripted(claims, script[..i + 1], max) == Woken(claims, Scripted(claims, script[..i], max), script[i], max)
    ensures var rest, running := Peak(claims, script[..i], max), Scripted(claims, script[..i + 1], max).running;
      Peak(claims, script[..i + 1], max) == if running > rest then running else rest
  {
    assert script[..i + 1][..i] == script[..i];
    hide Woken;
  }

  lemma {:induction false} ScriptedStart(claims: Claims, script: seq<Wake>, max: nat)
    ensures Scripted(claims, script[..0], max) == Tally(0, 0, 0, None) && Peak(claims, script[..0], max) == 0
  {
  }

  predicate Hands(claims: Claims, i: nat) {
    claims(i).Ok? && claims(i).value.Some?
  }

  /** The claims from one to another each handed out a run. */
  predicate AllHand(claims: Claims, from: nat, to: nat) {
    forall i: nat :: from <= i < to ==> Hands(claims, i)
  }

  lemma {:induction false} ClaimingStep(claims: Claims, t: Tally, max: nat)
    ensures t.running >= max ==> Claiming(claims, t, max) == t
    ensures t.running < max && Hands(claims, t.calls) ==>
      Claiming(claims, t, max) == Claiming(claims, t.(calls := t.calls + 1, running := t.running + 1), max)
    ensures t.running < max && claims(t.calls) == Ok(None) ==> Claiming(claims, t, max) == t.(calls := t.calls + 1)
    ensures t.running < max && claims(t.calls).Err? ==>
      Claiming(claims, t, max) == t.(calls := t.calls + 1, failure := Some(claims(t.calls).error))
  {
  }

  lemma {:induction false} HandsMore(claims: Claims, from: nat, to: nat)
    requires AllHand(claims, from, to) && Hands(claims, to)
    ensures AllHand(claims, from, to + 1)
  {
    hide Hands;
  }

  lemma {:induction false} NoneYet(claims: Claims, n: nat)
    ensures AllHand(claims, n, n)
  {
  }

  lemma {:induction false} NothingYet(claims: Claims)
    ensures NoFailure(claims, 0)
  {
  }

  lemma {:induction false} NoFailureMore(claims: Claims, n: nat)
    requires NoFailure(claims, n)
    ensures claims(n).Ok? ==> NoFailure(claims, n + 1)
  {
  }

  lemma {:induction false} NumberedMore(tasks: set<nat>, joined: set<nat>, n: nat)
    requires Numbered(tasks, joined, n) && tasks !! joined
    ensures n !in tasks && Numbered(tasks + {n}, joined, n + 1) && tasks + {n} !! joined
  {
    assert !(n in tasks || n in joined);
  }

  /** A tick goes on claiming until all slots are taken, or a claim finds nothing
      or fails; every other claim of it has started a handler. */
  lemma {:induction false} TickClaims(claims: Claims, t: Tally, max: nat)
    requires t.running <= max && t.failure.None?
    ensures var u := Claiming(claims, t, max);
      && u.joined == t.joined && t.calls <= u.calls
      && if u.failure.None? && u.running == max && AllHand(claims, t.calls, u.calls) then
           u.calls == t.calls + (max - t.running)
         else
           && t.running < max && t.calls < u.calls && AllHand(claims, t.calls, u.calls - 1)
           && u.running == t.running + (u.calls - t.calls - 1)
           && claims(u.calls - 1) == (if u.failure.Some? then Err(u.failure.value) else Ok(None))
    decreases max - t.running
  {
    if t.running < max && Hands(claims, t.calls) {
      TickClaims(claims, t.(calls := t.calls + 1, running := t.running + 1), max);
    }
  }

  /** A finished handler is joined and frees its slot. */
  lemma {:induction false} DoneFrees(claims: Claims, script: seq<Wake>, max: nat)
    ensures var t, u := Scripted(claims, script, max), Scripted(claims, script + [HandlerDone], max);
      && u.calls == t.calls && u.failure == t.failure
      && (t.failure.None? && t.running > 0 ==> u.running == t.running - 1 && u.joined == t.joined + 1)
      && (t.failure.Some? || t.running == 0 ==> u == t)
  {
    assert (script + [HandlerDone])[..|script|] == script;
  }

  class ResumeWorker {
    const leaseTtl: Duration
    const pollInterval: Duration
    const maxConcurrency: nat

    /** The contexts handed to a handler, in order; tasks holds the indices of
        those still in the join set and joined those that have been joined. */
    var started: seq<Lease>
    var tasks: set<nat>
    var joined: set<nat>
    var calls: nat

    constructor (leaseTtl: Duration, pollInterval: Duration, maxConcurrency: nat)
      ensures this.leaseTtl == leaseTtl && this.pollInterval == pollInterval && this.maxConcurrency == maxConcurrency
      ensures started == [] && tasks == {} && joined == {} && calls == 0
    {
      this.leaseTtl, this.pollInterval, this.maxConcurrency := leaseTtl, pollInterval, maxConcurrency;
      started, tasks, joined, calls := [], {}, {}, 0;
    }

    /** Every claimed context has its one handler, running or joined. */
    ghost predicate Dispatched(claims: Claims)
      reads this
    {
      && started == Claimed(claims, calls)
      && Numbered(tasks, joined, |started|)
      && tasks !! joined
    }

    ghost function Counted(failure: Option<Error>): Tally
      reads this
    {
      Tally(calls, |tasks|, |joined|, failure)
    }

    /** The inner loop of a tick: it stops only with all slots taken, or at a claim
        that finds nothing or fails; every other claim starts a handler. */
    method Fill(claims: Claims) returns (failure: Option<Error>)
      requires Dispatched(claims) && |tasks| <= maxConcurrency && NoFailure(claims, calls)
      modifies this
      ensures Dispatched(claims) && |tasks| <= maxConcurrency
      ensures joined == old(joined) && old(tasks) <= tasks
      ensures failure.None? ==> NoFailure(claims, calls)
      ensures failure.Some? ==> calls > 0 && NoFailure(claims, calls - 1) && claims(calls - 1) == Err(failure.value)
      ensures old(calls) <= calls
      ensures failure.None? ==>
        || (|tasks| == maxConcurrency && AllHand(claims, old(calls), calls))
        || (calls > old(calls) && claims(calls - 1) == Ok(None) && AllHand(claims, old(calls), calls - 1))
      ensures failure.Some? ==> calls > old(calls) && AllHand(claims, old(calls), calls - 1)
      ensures Counted(failure) == Claiming(claims, old(Counted(None)), maxConcurrency)
    {
      failure := None;
      ClaimingStep(claims, Counted(None), maxConcurrency);
      NoneYet(claims, calls);
      hide Claiming, AllHand, NoFailure, Dispatched;
      var more := true;
      while |tasks| < maxConcurrency && more
        invariant Dispatched(claims) && |tasks| <= maxConcurrency && failure.None? && NoFailure(claims, calls)
        invariant joined == old(joined) && old(tasks) <= tasks && old(calls) <= calls
        invariant more ==> AllHand(claims, old(calls), calls)
        invariant more ==> Claiming(claims, Counted(None), maxConcurrency) == Claiming(claims, old(Counted(None)), maxConcurrency)
        invariant more && |tasks| == maxConcurrency ==> Claiming(claims, Counted(None), maxConcurrency) == Counted(None)
        invariant !more ==> calls > old(calls) && claims(calls - 1) == Ok(None) && AllHand(claims, old(calls), calls - 1)
        invariant !more ==> Counted(None) == Claiming(claims, old(Counted(None)), maxConcurrency)
        decreases maxConcurrency - |tasks|, more
      {
        ClaimingStep(claims, Counted(None), maxConcurrency);
        NoFailureMore(claims, calls);
        var answer := Claim(claims);
        match answer {
          case Ok(Some(lease)) =>
            HandsMore(claims, old(calls), calls - 1);
            ClaimingStep(claims, Counted(None), maxConcurrency);
          case Ok(None) => more := false;
          case Err(error) => return Some(error);
        }
      }
    }

    /** One claim; a context that it hands out gets a handler. */
    method Claim(claims: Claims) returns (answer: Result<Option<Lease>>)
      requires Dispatched(claims)
      modifies this`calls, this`tasks, this`started
      ensures Dispatched(claims) && answer == claims(old(calls)) && calls == old(calls) + 1
      ensures started == if answer.Ok? && answer.value.Some? then old(started) + [answer.value.value] else old(started)
      ensures old(tasks) <= tasks
      ensures |tasks| == old(|tasks|) + if answer.Ok? && answer.value.Some? then 1 else 0
    {
      NumberedMore(tasks, joined, |started|);
      hide Numbered;
      answer := claims(calls);
      calls := calls + 1;
      if answer.Ok? && answer.value.Some? {
        tasks := tasks + {|started|};
        started := started + [answer.value.value];
      }
    }

    method JoinNext(claims: Claims)
      requires Dispatched(claims) && tasks != {}
      modifies this`tasks, this`joined
      ensures Dispatched(claims) && |tasks| == old(|tasks|) - 1 && |joined| == old(|joined|) + 1
      ensures tasks <= old(tasks) && old(joined) <= joined && tasks + joined == old(tasks + joined)
    {
      var task :| task in tasks;
      tasks, joined := tasks - {task}, joined + {task};
    }

    /** What select! does with one wake. */
    method TakeUp(claims: Claims, wake: Wake) returns (failure: Option<Error>)
      requires Dispatched(claims) && |tasks| <= maxConcurrency && NoFailure(claims, calls)
      modifies this
      ensures Dispatched(claims) && |tasks| <= maxConcurrency
      ensures ClaimsOk(claims, failure)
      ensures Counted(failure) == Woken(claims, old(Counted(None)), wake, maxConcurrency)
    {
      hide Claiming, NoFailure, AllHand, Numbered;
      failure := None;
      match wake {
        case Tick => failure := Fill(claims);
        case HandlerDone =>
          if tasks != {} {
            JoinNext(claims);
          }
      }
    }

    /** All claims but the last have succeeded, and that one as well unless it is
        the failure. */
    predicate ClaimsOk(claims: Claims, failure: Option<Error>)
      reads this
    {
      match failure
      case None => NoFailure(claims, calls)
      case Some(error) => calls > 0 && NoFailure(claims, calls - 1) && claims(calls - 1) == Err(error)
    }

    /** The loop takes up the wakes in turn, up to a claim that fails. */
    method Loop(claims: Claims, script: seq<Wake>) returns (failure: Option<Error>, peak: nat)
      requires Dispatched(claims) && started == [] && tasks == {} && joined == {} && calls == 0
      modifies this
      ensures Dispatched(claims) && ClaimsOk(claims, failure)
      ensures peak <= maxConcurrency
      ensures Counted(failure) == Scripted(claims, script, maxConcurrency) && peak == Peak(claims, script, maxConcurrency)
    {
      failure, peak := None, 0;
      var i := 0;
      ScriptedStart(claims, script, maxConcurrency);
      NothingYet(claims);
      hide Scripted, Peak, Woken, NoFailure, Numbered, Claimed;
      while i < |script| && failure.None?
        invariant 0 <= i <= |script|
        invariant Dispatched(claims) && |tasks| <= maxConcurrency && peak <= maxConcurrency
        invariant ClaimsOk(claims, failure)
        invariant Counted(failure) == Scripted(claims, script[..i], maxConcurrency)
        invariant peak == Peak(claims, script[..i], maxConcurrency)
        decreases |script| - i, failure.None?
      {
        ScriptedStep(claims, script, i, maxConcurrency);
        failure := TakeUp(claims, script[i]);
        if peak < |tasks| {
          peak := |tasks|;
        }
        i := i + 1;
      }
      FailedStops(claims, script, i, maxConcurrency);
      assert script[..|script|] == script;
    }

    /** The final drain. */
    method Drain(claims: Claims)
      requires Dispatched(claims)
      modifies this`tasks, this`joined
      ensures Dispatched(claims) && tasks == {} && |joined| == old(|tasks| + |joined|)
    {
      hide Numbered;
      while tasks != {}
        invariant Dispatched(claims) && |tasks| + |joined| == old(|tasks| + |joined|)
        decreases |tasks|
      {
        JoinNext(claims);
      }
    }

    /** Each tick claims into the free slots and each finished handler is joined.
        At no point more than maxConcurrency handlers run, each claimed context is
        handed to exactly one, and run returns only after all have been joined,
        with the error of the failed claim if there was one. */
    method Run(claims: Claims, script: seq<Wake>) returns (r: Result<()>, peak: nat)
      requires started == [] && tasks == {} && joined == {} && calls == 0
      modifies this
      ensures leaseTtl < MIN_LEASE_TTL || pollInterval == 0 || maxConcurrency == 0 ==>
        r == Err(InvalidState) && started == [] && calls == 0
      ensures started == Claimed(claims, calls)
      ensures tasks == {} && Numbered({}, joined, |started|)
      ensures peak <= maxConcurrency
      ensures leaseTtl >= MIN_LEASE_TTL && pollInterval > 0 && maxConcurrency > 0 ==>
        var t := Scripted(claims, script, maxConcurrency);
        && calls == t.calls && |joined| == t.joined + t.running && peak == Peak(claims, script, maxConcurrency)
        && r == (if t.failure.Some? then Err(t.failure.value) else Ok(()))
      ensures leaseTtl >= MIN_LEASE_TTL && pollInterval > 0 && maxConcurrency > 0 ==>
        ClaimsOk(claims, if r.Ok? then None else Some(r.error))
    {
      if leaseTtl < MIN_LEASE_TTL || pollInterval == 0 || maxConcurrency == 0 {
        return Err(InvalidState), 0;
      }
      hide Scripted, Peak, NoFailure;
      var failure: Option<Error>;
      failure, peak := Loop(claims, script);
      Drain(claims);
      r := if failure.Some? then Err(failure.value) else Ok(());
    }
  }

  /** After a failed claim the rest of the script is not taken up. */
  lemma {:induction false} FailedStops(claims: Claims, script: seq<Wake>, i: nat, max: nat)
    requires i <= |script|
    ensures Scripted(claims, script[..i], max).failure.Some? ==>
      && Scripted(claims, script, max) == Scripted(claims, script[..i], max)
      && Peak(claims, script, max) == Peak(claims, script[..i], max)
  {
    if i < |script| {
      FailedStops(claims, script[..|script| - 1], i, max);
      assert script[..|script| - 1][..i] == script[..i];
      if Scripted(claims, script[..i], max).failure.Some? {
        PeakCovers(claims, script[..|script| - 1], max);
      }
    } else {
      assert script[..i] == script;
    }
  }

  lemma {:induction false} PeakCovers(claims: Claims, script: seq<Wake>, max: nat)
    ensures Scripted(claims, script, max).running <= Peak(claims, script, max)
  {
  }

  // ---------- One claiming loop over the database ----------

  ghost predicate InWindow(clock: nat -> int, start: int, ttlMs: int) {
    forall i: nat :: Within(clock(i), start, ttlMs)
  }

  predicate Within(now: int, start: int, ttlMs: int) {
    start <= now < start + ttlMs && I64_MIN <= now + ttlMs <= I64_MAX
  }

  predicate Contains(leases: seq<Lease>, id: Uuid) {
    exists i :: 0 <= i < |leases| && leases[i].runId == id
  }

  predicate DistinctRuns(leases: seq<Lease>) {
    forall i, j :: 0 <= i < j < |leases| ==> leases[i].runId != leases[j].runId
  }

  /** A claimed run was recoverable and is now running under the lease that was
      handed out for it. */
  predicate TakenAt(before: map<Uuid, Run>, now: map<Uuid, Run>, lease: Lease, at: int, ttlMs: int) {
    && lease.runId in before && Claimable(before[lease.runId], at)
    && lease.runId in now && GrantedTo(now[lease.runId], lease) && now[lease.runId].status == Running
    && lease.expires == at + ttlMs
  }

  predicate OwnedBy(leases: seq<Lease>, owners: nat -> Uuid) {
    forall i :: 0 <= i < |leases| ==> leases[i].owner == owners(i)
  }

  ghost predicate OthersKept(before: map<Uuid, Run>, now: map<Uuid, Run>, leases: seq<Lease>) {
    && now.Keys == before.Keys
    && (forall id :: id in before && !Contains(leases, id) ==> now[id] == before[id])
    && (forall id :: id in before ==> now[id].createdAt == before[id].createdAt)
  }

  ghost predicate ClaimedSoFar(before: map<Uuid, Run>, now: map<Uuid, Run>, leases: seq<Lease>, clock: nat -> int, ttlMs: int) {
    && DistinctRuns(leases)
    && (forall i :: 0 <= i < |leases| ==> TakenAt(before, now, leases[i], clock(i), ttlMs))
    && OthersKept(before, now, leases)
  }

  /** First by (created_at, id) of the runs recoverable at a clock reading and
      not yet claimed. */
  ghost predicate FirstLeft(before: map<Uuid, Run>, claimed: seq<Lease>, runId: Uuid, now: int) {
    && runId in before
    && forall id :: id in before && Claimable(before[id], now) && !Contains(claimed, id) ==>
         ComesFirst(before[runId].createdAt, runId, before[id].createdAt, id)
  }

  ghost predicate TakenInOrder(before: map<Uuid, Run>, leases: seq<Lease>, clock: nat -> int) {
    forall i :: 0 <= i < |leases| ==> FirstLeft(before, leases[..i], leases[i].runId, clock(i))
  }

  /** A run claimed in the window is not recoverable at any reading in it. */
  lemma {:induction false} ClaimedNotClaimable(before: map<Uuid, Run>, now: map<Uuid, Run>, leases: seq<Lease>,
                                               clock: nat -> int, start: int, ttlMs: int, at: nat, id: Uuid)
    requires ClaimedSoFar(before, now, leases, clock, ttlMs) && InWindow(clock, start, ttlMs)
    requires id in before && Contains(leases, id)
    ensures !Claimable(now[id], clock(at))
  {
    var i :| 0 <= i < |leases| && leases[i].runId == id;
    assert Within(clock(i), start, ttlMs) && Within(clock(at), start, ttlMs);
  }

  lemma {:induction false} NoneClaimed(before: map<Uuid, Run>, clock: nat -> int, ttlMs: int)
    ensures ClaimedSoFar(before, before, [], clock, ttlMs) && TakenInOrder(before, [], clock)
  {
  }

  /** With nothing to claim, every run that could be claimed has been. */
  lemma {:induction false} NoneLeft(before: map<Uuid, Run>, view: map<Uuid, Run>, leases: seq<Lease>,
                                    clock: nat -> int, ttlMs: int, now: int)
    requires ClaimedSoFar(before, view, leases, clock, ttlMs)
    requires forall id :: id in view ==> !Claimable(view[id], now)
    ensures forall id :: id in before && Claimable(before[id], now) ==> Contains(leases, id)
  {
    hide Claimable, Contains, TakenAt, DistinctRuns;
  }

  /** claim_next_recoverable_run, at a reading that leaves room for the TTL. */
  method ClaimOne(db: Database, ttl: Duration, now: int, owner: Uuid) returns (lease: Option<Lease>)
    requires db.Valid() && DurationToMillis(ttl).Ok? && I64_MIN <= now + DurationToMillis(ttl).value <= I64_MAX
    modifies db
    ensures db.Valid()
    ensures Invariant.AllInv(old(db.View())) ==> Invariant.AllInv(db.View())
    ensures lease.None? ==> db.View() == old(db.View()) && forall id :: id in db.View() ==> !Claimable(db.View()[id], now)
    ensures lease.Some? ==>
      lease.value.owner == owner && NextClaim(old(db.View()), db.View(), lease.value, now, DurationToMillis(ttl).value)
  {
    hide TablesOk, ViewOf, ClaimSelected, Claimable, ComesFirst, Invariant.AllInv;
    ghost var view := db.View();
    var answer := db.ClaimNextRecoverableRun(owner, ttl, now);
    lease := answer.value;
    if lease.Some? {
      ClaimIsNext(view, db.View(), lease.value, owner, now, DurationToMillis(ttl).value);
    }
  }

  /** Claims runs until there is none left or all handlers are busy. With no other
      lease changes and a clock that advances by less than the TTL, each
      recoverable run is claimed at most once, in order, and the loop ends. */
  method ClaimLoop(db: Database, ttl: Duration, clock: nat -> int, owners: nat -> Uuid, capacity: nat, ghost start: int)
    returns (leases: seq<Lease>)
    requires db.Valid() && DurationToMillis(ttl).Ok? && InWindow(clock, start, DurationToMillis(ttl).value)
    modifies db
    ensures db.Valid()
    ensures ClaimedSoFar(old(db.View()), db.View(), leases, clock, DurationToMillis(ttl).value)
    ensures TakenInOrder(old(db.View()), leases, clock) && OwnedBy(leases, owners)
    ensures Invariant.AllInv(old(db.View())) ==> Invariant.AllInv(db.View())
    ensures |leases| <= capacity
    ensures |leases| < capacity ==>
      forall id :: id in old(db.View()) && Claimable(old(db.View())[id], clock(|leases|)) ==> Contains(leases, id)
  {
    ghost var ttlMs, before := DurationToMillis(ttl).value, db.View();
    leases := [];
    NoneClaimed(before, clock, ttlMs);
    hide TakenInOrder, ClaimedSoFar, TablesOk, ViewOf, NextClaim, Invariant.AllInv, Claimable, Contains;
    while |leases| < capacity
      invariant db.Valid() && |leases| <= capacity
      invariant Invariant.AllInv(before) ==> Invariant.AllInv(db.View())
      invariant ClaimedSoFar(before, db.View(), leases, clock, ttlMs)
      invariant TakenInOrder(before, leases, clock) && OwnedBy(leases, owners)
      decreases capacity - |leases|
    {
      var n := |leases|;
      ghost var view := db.View();
      assert Within(clock(n), start, ttlMs);
      var lease := ClaimOne(db, ttl, clock(n), owners(n));
      if lease.None? {
        NoneLeft(before, view, leases, clock, ttlMs, clock(n));
        return;
      }
      ClaimIsNew(before, view, db.View(), leases, lease.value, clock, start, ttlMs);
      ExtendClaims(before, view, db.View(), leases, lease.value, clock, ttlMs);
      ExtendOrder(before, view, db.View(), leases, lease.value, clock, ttlMs);
      leases := leases + [lease.value];
    }
  }

  lemma {:induction false} ContainsMore(leases: seq<Lease>, lease: Lease)
    ensures forall id :: Contains(leases + [lease], id) <==> Contains(leases, id) || id == lease.runId
  {
    var more := leases + [lease];
    assert forall i :: 0 <= i < |leases| ==> more[i] == leases[i];
    forall id | Contains(leases, id) || id == lease.runId
      ensures Contains(more, id)
    {
      if id == lease.runId {
        assert more[|leases|].runId == id;
      } else {
        var i :| 0 <= i < |leases| && leases[i].runId == id;
        assert more[i].runId == id;
      }
    }
  }

  /** What the next claim has to show. */
  ghost predicate NextClaim(view: map<Uuid, Run>, after: map<Uuid, Run>, lease: Lease, now: int, ttlMs: int) {
    && lease.runId in view && Claimable(view[lease.runId], now)
    && after.Keys == view.Keys
    && (forall id :: id in view && id != lease.runId ==> after[id] == view[id])
    && GrantedTo(after[lease.runId], lease) && after[lease.runId].status == Running && lease.expires == now + ttlMs
    && after[lease.runId].createdAt == view[lease.runId].createdAt
    && (forall id :: id in view && Claimable(view[id], now) ==>
          ComesFirst(view[lease.runId].createdAt, lease.runId, view[id].createdAt, id))
  }

  lemma {:induction false} ClaimIsNew(before: map<Uuid, Run>, view: map<Uuid, Run>, after: map<Uuid, Run>, leases: seq<Lease>,
                                      lease: Lease, clock: nat -> int, start: int, ttlMs: int)
    requires ClaimedSoFar(before, view, leases, clock, ttlMs) && InWindow(clock, start, ttlMs)
    requires NextClaim(view, after, lease, clock(|leases|), ttlMs)
    ensures !Contains(leases, lease.runId)
  {
    hide Claimable, ComesFirst, TakenAt, InWindow, Contains;
    forall id | id in before && Contains(leases, id)
      ensures !Claimable(view[id], clock(|leases|))
    {
      ClaimedNotClaimable(before, view, leases, clock, start, ttlMs, |leases|, id);
    }
  }

  lemma {:induction false} ClaimIsNext(view: map<Uuid, Run>, after: map<Uuid, Run>, lease: Lease,
                                       owner: Uuid, now: int, ttlMs: int)
    requires lease.runId in view && Claimable(view[lease.runId], now) && I64_MIN <= now + ttlMs <= I64_MAX
    requires forall id :: id in view && Claimable(view[id], now) ==>
      ComesFirst(view[lease.runId].createdAt, lease.runId, view[id].createdAt, id)
    requires after == view[lease.runId := ClaimSelected(view[lease.runId], lease.runId, owner, now, ttlMs).After(view[lease.runId])]
    requires Ok(lease) == ClaimSelected(view[lease.runId], lease.runId, owner, now, ttlMs).Reply()
    ensures NextClaim(view, after, lease, now, ttlMs)
  {
  }

  lemma {:induction false} ExtendDistinct(leases: seq<Lease>, lease: Lease)
    requires DistinctRuns(leases) && !Contains(leases, lease.runId)
    ensures DistinctRuns(leases + [lease])
  {
    forall i | 0 <= i < |leases|
      ensures leases[i].runId != lease.runId
    {
      assert Contains(leases, leases[i].runId);
    }
  }

  lemma {:induction false} ExtendKept(before: map<Uuid, Run>, view: map<Uuid, Run>, after: map<Uuid, Run>, leases: seq<Lease>,
                                      lease: Lease, now: int, ttlMs: int)
    requires OthersKept(before, view, leases) && NextClaim(view, after, lease, now, ttlMs)
    ensures OthersKept(before, after, leases + [lease])
  {
    ContainsMore(leases, lease);
    hide Contains, Claimable, ComesFirst;
  }

  lemma {:induction false} ExtendClaims(before: map<Uuid, Run>, view: map<Uuid, Run>, after: map<Uuid, Run>, leases: seq<Lease>,
                                        lease: Lease, clock: nat -> int, ttlMs: int)
    requires ClaimedSoFar(before, view, leases, clock, ttlMs)
    requires NextClaim(view, after, lease, clock(|leases|), ttlMs) && !Contains(leases, lease.runId)
    ensures ClaimedSoFar(before, after, leases + [lease], clock, ttlMs)
  {
    var more := leases + [lease];
    ExtendDistinct(leases, lease);
    ExtendKept(before, view, after, leases, lease, clock(|leases|), ttlMs);
    assert view[lease.runId] == before[lease.runId];
    hide OthersKept, Claimable, ComesFirst;
    forall i | 0 <= i < |more|
      ensures TakenAt(before, after, more[i], clock(i), ttlMs)
    {
      if i < |leases| {
        assert TakenAt(before, view, leases[i], clock(i), ttlMs);
        assert Contains(leases, leases[i].runId);
        assert more[i] == leases[i];
      }
    }
  }

  lemma {:induction false} ExtendOrder(before: map<Uuid, Run>, view: map<Uuid, Run>, after: map<Uuid, Run>, leases: seq<Lease>,
                                       lease: Lease, clock: nat -> int, ttlMs: int)
    requires ClaimedSoFar(before, view, leases, clock, ttlMs) && TakenInOrder(before, leases, clock)
    requires NextClaim(view, after, lease, clock(|leases|), ttlMs) && !Contains(leases, lease.runId)
    ensures TakenInOrder(before, leases + [lease], clock)
  {
    hide Claimable, Contains;
    var more := leases + [lease];
    assert FirstLeft(before, leases, lease.runId, clock(|leases|));
    forall i | 0 <= i < |more|
      ensures FirstLeft(before, more[..i], more[i].runId, clock(i))
    {
      assert more[..i] == leases[..i];
      assert leases[..|leases|] == leases;
    }
  }
}

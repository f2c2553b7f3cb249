/** Durable sleeps: any number of calls of sleep() on one name, one step at a
    time, with the clock readings that each of them makes. Instants are those of
    the wall clock; a sleep of a remaining time lasts at least that long. */
module Timers {
  import opened Types
  import opened Clock
  import opened Steps

  /** i64::saturating_sub */
  function SaturatingSub(a: int, b: int): int {
    if a - b > I64_MAX then I64_MAX else if a - b < I64_MIN then I64_MIN else a - b
  }

  /** The earliest instant at which sleep() goes on after its second reading. */
  function Resumes(wakeAt: int, read: int): int {
    var remaining := SaturatingSub(wakeAt, MillisAt(read));
    if remaining > 0 then read + remaining * NANOS_PER_MILLI else read
  }

  /** The remaining time reaches the wake time exactly when that is at most an
      i64 of milliseconds away. */
  lemma {:induction false} RemainingIsEnough(wakeAt: int, read: int)
    ensures Resumes(wakeAt, read) >= wakeAt * NANOS_PER_MILLI <==> wakeAt - MillisAt(read) <= I64_MAX
  {
    var remaining := SaturatingSub(wakeAt, MillisAt(read));
    assert read == MillisAt(read) * NANOS_PER_MILLI + read % NANOS_PER_MILLI;
    assert read + remaining * NANOS_PER_MILLI == (MillisAt(read) + remaining) * NANOS_PER_MILLI + read % NANOS_PER_MILLI;
  }

  /** The wake time of a call that reads the clock at an instant. */
  predicate AskedAt(wakeAt: int, at: int, delay: Duration) {
    DurationToMillis(delay).Ok? && wakeAt == MillisAt(at) + DurationToMillis(delay).value
  }

  /** The stored wake time is within a millisecond of the instant the committing
      call asked for: the clock reading rounds down and the delay up. */
  lemma {:induction false} WakeTimeBound(wakeAt: int, at: int, delay: Duration)
    requires AskedAt(wakeAt, at, delay)
    ensures at + delay - NANOS_PER_MILLI < wakeAt * NANOS_PER_MILLI < at + delay + NANOS_PER_MILLI
  {
    DurationRoundsUp(delay);
  }

  /** A wake time asked for no later than a reading is never too far away. */
  lemma {:induction false} AskedBefore(wakeAt: int, at: int, delay: Duration, read: int)
    requires AskedAt(wakeAt, at, delay) && at <= read
    ensures wakeAt - MillisAt(read) <= I64_MAX
  {
    assert MillisAt(at) <= MillisAt(read);
  }

  // ---------- The timer of one run and name ----------

  /** Where a call of sleep() is. at and read are the instants of its two clock
      readings, woke that at which its waiting ended. */
  datatype Phase =
    | Called(delay: Duration)
    | Asked(at: int, delay: Duration, wake: int)
    | Scheduled(wakeAt: int)
    | Asleep(wakeAt: int, read: int)
    | Awake(wakeAt: int, read: int, woke: int)
    | Returned(wakeAt: int, read: int, woke: int)
    | Refused
  {
    predicate HasWake() {
      Scheduled? || Asleep? || Awake? || Returned?
    }

    predicate HasWoken() {
      Awake? || Returned?
    }
  }

  /** origin is the reading and the delay of the call that stored the timer. */
  datatype TimerSys = TimerSys(hasRun: bool, row: Option<TimerRow>, origin: Option<(int, Duration)>, sleepers: map<nat, Phase>)

  datatype TimerAct =
    | SleepCall(k: nat, delay: Duration)
    | ReadClock(k: nat, at: int)
    | Commit(k: nat)
    | ReadAgain(k: nat, at: int)
    | Wake(k: nat, at: int)
    | Finish(k: nat)

  function NewTimer(hasRun: bool): TimerSys {
    TimerSys(hasRun, None, None, map[])
  }

  function AfterReading(delay: Duration, at: int): Phase {
    match DurationToMillis(delay)
    case Err(_) => Refused
    case Ok(ms) =>
      match CheckedAdd(MillisAt(at), ms)
      case None => Refused
      case Some(wake) => Asked(at, delay, wake)
  }

  function Act(s: TimerSys, a: TimerAct): TimerSys {
    if a.SleepCall? then (if a.k in s.sleepers then s else s.(sleepers := s.sleepers[a.k := Called(a.delay)]))
    else if a.k !in s.sleepers then s
    else
      match (a, s.sleepers[a.k])
      case (ReadClock(k, at), Called(delay)) => s.(sleepers := s.sleepers[k := AfterReading(delay, at)])
      case (Commit(k), Asked(at, delay, wake)) =>
        if !s.hasRun then s.(sleepers := s.sleepers[k := Refused])
        else
          var row := ScheduledRow(s.row, wake);
          TimerSys(true, Some(row), if s.row.Some? then s.origin else Some((at, delay)),
                   s.sleepers[k := Scheduled(row.wakeAt)])
      case (ReadAgain(k, at), Scheduled(wakeAt)) => s.(sleepers := s.sleepers[k := Asleep(wakeAt, at)])
      case (Wake(k, at), Asleep(wakeAt, read)) =>
        if at >= Resumes(wakeAt, read) then s.(sleepers := s.sleepers[k := Awake(wakeAt, read, at)]) else s
      case (Finish(k), Awake(wakeAt, read, woke)) =>
        s.(row := if s.row.Some? then Some(s.row.value.(completed := true)) else None,
           sleepers := s.sleepers[k := Returned(wakeAt, read, woke)])
      case _ => s
  }

  function ActAll(s: TimerSys, acts: seq<TimerAct>): TimerSys {
    if acts == [] then s else Act(ActAll(s, acts[..|acts| - 1]), acts[|acts| - 1])
  }

  // ---------- Whatever the clock does ----------

  predicate PhaseOk(s: TimerSys, p: Phase) {
    && (p.Asked? ==> AskedAt(p.wake, p.at, p.delay))
    && (p.HasWake() ==> s.row.Some? && p.wakeAt == s.row.value.wakeAt)
    && (p.HasWoken() ==> p.woke >= Resumes(p.wakeAt, p.read))
  }

  predicate AnyReturned(s: TimerSys) {
    exists k :: k in s.sleepers && s.sleepers[k].Returned?
  }

  ghost predicate TimerInv(s: TimerSys) {
    && (s.row.Some? && s.row.value.completed <==> AnyReturned(s))
    && (s.row.Some? <==> s.origin.Some?)
    && (s.row.Some? ==> AskedAt(s.row.value.wakeAt, s.origin.value.0, s.origin.value.1))
    && forall k :: k in s.sleepers ==> PhaseOk(s, s.sleepers[k])
  }

  lemma {:induction false} ActKeeps(s: TimerSys, a: TimerAct)
    requires TimerInv(s)
    ensures TimerInv(Act(s, a))
  {
    hide Resumes, DurationToMillis;
    ReturnedAfter(s, a);
    hide AnyReturned;
  }

  /** A call returns by finishing, and stays so. */
  lemma {:induction false} ReturnedAfter(s: TimerSys, a: TimerAct)
    ensures AnyReturned(Act(s, a)) <==>
      AnyReturned(s) || (a.Finish? && a.k in s.sleepers && s.sleepers[a.k].Awake?)
  {
    hide Resumes, DurationToMillis;
    var t := Act(s, a);
    if k :| k in s.sleepers && s.sleepers[k].Returned? {
      assert k in t.sleepers && t.sleepers[k].Returned?;
    }
    if a.Finish? && a.k in s.sleepers && s.sleepers[a.k].Awake? {
      assert t.sleepers[a.k].Returned?;
    }
    if k :| k in t.sleepers && t.sleepers[k].Returned? {
      assert k in s.sleepers && (s.sleepers[k].Returned? || (a.Finish? && a.k == k));
    }
  }

  /** A timer is marked completed exactly once a call has returned. */
  lemma {:induction false} CompletedIffReturned(hasRun: bool, acts: seq<TimerAct>)
    ensures var s := ActAll(NewTimer(hasRun), acts);
      s.row.Some? && s.row.value.completed <==> AnyReturned(s)
  {
    hide ActAll, AnyReturned;
    ActAllInv(hasRun, acts);
  }

  lemma {:induction false} ActAllInv(hasRun: bool, acts: seq<TimerAct>)
    ensures TimerInv(ActAll(NewTimer(hasRun), acts))
  {
    if acts != [] {
      ActAllInv(hasRun, acts[..|acts| - 1]);
      ActKeeps(ActAll(NewTimer(hasRun), acts[..|acts| - 1]), acts[|acts| - 1]);
    }
  }

  lemma {:induction false} StoredTimerStays(s: TimerSys, acts: seq<TimerAct>)
    requires s.row.Some?
    ensures ActAll(s, acts).row.Some? && ActAll(s, acts).origin == s.origin
    ensures ActAll(s, acts).row.value.wakeAt == s.row.value.wakeAt
    ensures s.row.value.completed ==> ActAll(s, acts).row.value.completed
  {
    hide Resumes, AfterReading;
    if acts != [] {
      StoredTimerStays(s, acts[..|acts| - 1]);
    }
  }

  /** For any interleaving of calls with any delays, failing ones included, and
      any clock: the first wake time that a call commits is the one that every
      call gets, at that time and ever after. */
  lemma {:induction false} FirstWakeWins(hasRun: bool, acts: seq<TimerAct>, more: seq<TimerAct>, k: nat)
    requires ActAll(NewTimer(hasRun), acts).row.Some?
    ensures var s, later := ActAll(NewTimer(hasRun), acts), ActAll(NewTimer(hasRun), acts + more);
      && s.origin.Some? && later.origin == s.origin
      && later.row.Some? && later.row.value.wakeAt == s.row.value.wakeAt
      && AskedAt(s.row.value.wakeAt, s.origin.value.0, s.origin.value.1)
      && (k in later.sleepers && later.sleepers[k].HasWake() ==> later.sleepers[k].wakeAt == s.row.value.wakeAt)
  {
    hide Act;
    ActAllInv(hasRun, acts);
    ActAllInv(hasRun, acts + more);
    ActAllSplits(NewTimer(hasRun), acts, more);
    StoredTimerStays(ActAll(NewTimer(hasRun), acts), more);
  }

  lemma {:induction false} ActAllSplits(s: TimerSys, first: seq<TimerAct>, second: seq<TimerAct>)
    ensures ActAll(s, first + second) == ActAll(ActAll(s, first), second)
  {
    if second == [] {
      assert first + second == first;
    } else {
      ActAllSplits(s, first, second[..|second| - 1]);
      assert (first + second)[..|first + second| - 1] == first + second[..|second| - 1];
    }
  }

  // ---------- With a clock that never goes back ----------

  function TimeOf(a: TimerAct): Option<int> {
    match a
    case ReadClock(_, at) => Some(at)
    case ReadAgain(_, at) => Some(at)
    case Wake(_, at) => Some(at)
    case _ => None
  }

  predicate NotAfter(acts: seq<TimerAct>, now: int) {
    forall i :: 0 <= i < |acts| && TimeOf(acts[i]).Some? ==> TimeOf(acts[i]).value <= now
  }

  predicate Monotone(acts: seq<TimerAct>) {
    forall i :: 0 <= i < |acts| && TimeOf(acts[i]).Some? ==> NotAfter(acts[..i], TimeOf(acts[i]).value)
  }

  predicate ReadInOrder(s: TimerSys, p: Phase, now: int) {
    && (p.Asked? ==> p.at <= now)
    && (p.Asleep? || p.HasWoken() ==> s.origin.Some? && s.origin.value.0 <= p.read)
  }

  /** Every reading so far is at or before now, and every sleeper read the clock
      again no earlier than the stored timer's caller had. */
  ghost predicate InOrder(s: TimerSys, now: int) {
    && (s.origin.Some? ==> s.origin.value.0 <= now)
    && forall k :: k in s.sleepers ==> ReadInOrder(s, s.sleepers[k], now)
  }

  lemma {:induction false} ActInOrder(s: TimerSys, a: TimerAct, now: int)
    requires TimerInv(s) && InOrder(s, now)
    requires TimeOf(a).Some? ==> TimeOf(a).value == now
    ensures InOrder(Act(s, a), now)
  {
    hide Resumes, DurationToMillis;
  }

  lemma {:induction false} MonotoneInOrder(hasRun: bool, acts: seq<TimerAct>, now: int)
    requires Monotone(acts) && NotAfter(acts, now)
    ensures InOrder(ActAll(NewTimer(hasRun), acts), now)
  {
    hide Act, TimerInv;
    if acts != [] {
      var init, a := acts[..|acts| - 1], acts[|acts| - 1];
      assert forall i :: 0 <= i < |init| ==> init[i] == acts[i] && init[..i] == acts[..i];
      var at := if TimeOf(a).Some? then TimeOf(a).value else now;
      assert NotAfter(init, at);
      MonotoneInOrder(hasRun, init, at);
      ActAllInv(hasRun, init);
      ActInOrder(ActAll(NewTimer(hasRun), init), a, at);
    }
  }

  /** With a clock that never goes back no call of sleep() goes on before the
      stored wake time, whichever call stored it and whatever the delays are: so
      never earlier than its delay, less one millisecond, after that reading. */
  lemma {:induction false} NeverEarly(hasRun: bool, acts: seq<TimerAct>, now: int, k: nat)
    requires Monotone(acts) && NotAfter(acts, now)
    requires k in ActAll(NewTimer(hasRun), acts).sleepers && ActAll(NewTimer(hasRun), acts).sleepers[k].HasWoken()
    ensures var s := ActAll(NewTimer(hasRun), acts);
      && s.row.Some? && s.origin.Some?
      && s.sleepers[k].woke >= s.row.value.wakeAt * NANOS_PER_MILLI
      && s.sleepers[k].woke > s.origin.value.0 + s.origin.value.1 - NANOS_PER_MILLI
  {
    var s := ActAll(NewTimer(hasRun), acts);
    hide ActAll, Resumes, AskedAt;
    MonotoneInOrder(hasRun, acts, now);
    ActAllInv(hasRun, acts);
    assert PhaseOk(s, s.sleepers[k]) && ReadInOrder(s, s.sleepers[k], now);
    var wakeAt, read := s.row.value.wakeAt, s.sleepers[k].read;
    var (at, delay) := s.origin.value;
    AskedBefore(wakeAt, at, delay, read);
    RemainingIsEnough(wakeAt, read);
    WakeTimeBound(wakeAt, at, delay);
  }

  // ---------- When the clock goes back ----------

  predicate WakesEarly(s: TimerSys, k: nat, at: int) {
    && k in s.sleepers && s.sleepers[k].Asleep?
    && at < s.sleepers[k].wakeAt * NANOS_PER_MILLI
    && Act(s, Wake(k, at)).sleepers[k].Awake?
  }

  /** A sleeper can go on early exactly when the second reading is more than an
      i64 of milliseconds before the stored wake time, and then the clock has
      gone back since the timer was stored. */
  lemma {:induction false} EarlyIff(hasRun: bool, acts: seq<TimerAct>, k: nat)
    requires k in ActAll(NewTimer(hasRun), acts).sleepers && ActAll(NewTimer(hasRun), acts).sleepers[k].Asleep?
    ensures var s := ActAll(NewTimer(hasRun), acts);
      (exists at :: WakesEarly(s, k, at)) <==> s.sleepers[k].wakeAt - MillisAt(s.sleepers[k].read) > I64_MAX
    ensures var s := ActAll(NewTimer(hasRun), acts);
      s.sleepers[k].wakeAt - MillisAt(s.sleepers[k].read) > I64_MAX ==>
        s.origin.Some? && s.sleepers[k].read < s.origin.value.0
  {
    var s := ActAll(NewTimer(hasRun), acts);
    hide ActAll, Resumes, AskedAt;
    ActAllInv(hasRun, acts);
    var wakeAt, read := s.sleepers[k].wakeAt, s.sleepers[k].read;
    assert PhaseOk(s, s.sleepers[k]);
    RemainingIsEnough(wakeAt, read);
    if wakeAt - MillisAt(read) > I64_MAX {
      assert WakesEarly(s, k, Resumes(wakeAt, read));
      if s.origin.value.0 <= read {
        AskedBefore(wakeAt, s.origin.value.0, s.origin.value.1, read);
      }
    }
  }

  lemma {:induction false} FourActs(s: TimerSys, a: TimerAct, b: TimerAct, c: TimerAct, d: TimerAct)
    ensures ActAll(s, [a, b, c, d]) == Act(Act(Act(Act(s, a), b), c), d)
  {
    hide Act;
    assert [a, b, c, d][..3] == [a, b, c] && [a, b, c][..2] == [a, b] && [a, b][..1] == [a] && [a][..0] == [];
    assert ActAll(s, [a]) == Act(s, a);
    assert ActAll(s, [a, b]) == Act(ActAll(s, [a]), b);
    assert ActAll(s, [a, b, c]) == Act(ActAll(s, [a, b]), c);
  }

  const LONGEST: Duration := I64_MAX * NANOS_PER_MILLI

  /** A timer stored at the epoch with the longest delay, and a clock that is a
      millisecond back at the second reading. */
  const STEPPED_BACK := [SleepCall(0, LONGEST), ReadClock(0, 0), Commit(0), ReadAgain(0, -NANOS_PER_MILLI)]

  lemma {:induction false} ClockWentBack()
    ensures var s := ActAll(NewTimer(true), STEPPED_BACK);
      0 in s.sleepers && s.sleepers[0] == Asleep(I64_MAX, -NANOS_PER_MILLI) && exists at :: WakesEarly(s, 0, at)
  {
    var t0 := NewTimer(true);
    var t1 := Act(t0, SleepCall(0, LONGEST));
    var t2 := Act(t1, ReadClock(0, 0));
    var t3 := Act(t2, Commit(0));
    var t4 := Act(t3, ReadAgain(0, -NANOS_PER_MILLI));
    assert DurationToMillis(LONGEST) == Ok(I64_MAX) && MillisAt(0) == 0;
    assert t4.sleepers[0] == Asleep(I64_MAX, -NANOS_PER_MILLI);
    hide Act;
    FourActs(t0, STEPPED_BACK[0], STEPPED_BACK[1], STEPPED_BACK[2], STEPPED_BACK[3]);
    EarlyIff(true, STEPPED_BACK, 0);
  }
}

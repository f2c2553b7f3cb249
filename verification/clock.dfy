/** The millisecond clock of src/db.rs and how it rounds. Instants and durations
    are in nanoseconds; stored times are in milliseconds. */
module Clock {
  import opened Types

  const MIN_LEASE_TTL: Duration := 30 * NANOS_PER_MILLI

  /** Utc::now().timestamp_millis() at an instant. */
  function MillisAt(instant: int): int {
    instant / NANOS_PER_MILLI
  }

  /** duration_to_millis */
  function DurationToMillis(d: Duration): Result<int> {
    var whole := d / NANOS_PER_MILLI;
    var rounded := if d % NANOS_PER_MILLI == 0 then whole else whole + 1;
    if rounded <= I64_MAX then Ok(rounded) else Err(InvalidState)
  }

  /** The conversion is the exact ceiling, and fails exactly when no i64 is at
      least as long as the duration. */
  lemma DurationRoundsUp(d: Duration)
    ensures DurationToMillis(d).Ok? <==> d <= I64_MAX * NANOS_PER_MILLI
    ensures DurationToMillis(d).Ok? ==>
      var ms := DurationToMillis(d).value;
      0 <= ms && (ms - 1) * NANOS_PER_MILLI < d <= ms * NANOS_PER_MILLI
  {
    assert d == NANOS_PER_MILLI * (d / NANOS_PER_MILLI) + d % NANOS_PER_MILLI;
  }

  /** A lease taken at one instant for ttlMs is unexpired a gap later, whatever
      the instant, exactly when the gap is at most ttlMs - 1 milliseconds: the
      truncated clock costs the last one. */
  lemma LeaseOutlivesGap(gap: int, ttlMs: int)
    ensures (forall instant :: MillisAt(instant + gap) < MillisAt(instant) + ttlMs) <==>
      gap <= (ttlMs - 1) * NANOS_PER_MILLI
  {
    if gap <= (ttlMs - 1) * NANOS_PER_MILLI {
      forall instant
        ensures MillisAt(instant + gap) < MillisAt(instant) + ttlMs
      {
        assert instant + gap <= instant + (ttlMs - 1) * NANOS_PER_MILLI;
      }
    } else {
      var instant := NANOS_PER_MILLI - 1;
      assert instant + gap >= ttlMs * NANOS_PER_MILLI;
      assert MillisAt(instant + gap) >= ttlMs && MillisAt(instant) == 0;
    }
  }
}

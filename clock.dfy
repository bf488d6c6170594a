/**
 Clock-domain arithmetic of the Boson camera node.

 The camera driver stamps each frame with a monotonic-clock `timeval`
 (seconds and microseconds). The node turns it into a wall-clock ROS time by
 adding a fixed offset, the difference between a wall-clock reading and a
 monotonic reading taken once at start-up. Both the offset and the stamps are
 kept as (seconds, sub-second) pairs that are combined field by field, with
 no borrow and no carry, so the sub-second field is not kept in [0, 10^9).
 All integers are mathematical; the meaning of a pair is its total number of
 nanoseconds.
 */
module Clock {

  const NanosPerSecond: int := 1_000_000_000
  const NanosPerMicro: int := 1_000
  const MicrosPerSecond: int := 1_000_000

  /** A `struct timespec`: a monotonic reading, or the start-up offset. */
  datatype Timespec = Timespec(sec: int, nsec: int)

  /** A `struct timeval`: the driver's per-frame monotonic timestamp. */
  datatype Timeval = Timeval(sec: int, usec: int)

  /** A `ros::Time`: a wall-clock reading, or a message header stamp. */
  datatype Time = Time(sec: int, nsec: int)

  function SpecNanos(t: Timespec): int { t.sec * NanosPerSecond + t.nsec }

  function ValNanos(t: Timeval): int { t.sec * NanosPerSecond + t.usec * NanosPerMicro }

  function TimeNanos(t: Time): int { t.sec * NanosPerSecond + t.nsec }

  /** What the clocks deliver: the sub-second field is in range. */
  predicate CanonicalSpec(t: Timespec) { 0 <= t.nsec < NanosPerSecond }

  predicate CanonicalVal(t: Timeval) { 0 <= t.usec < MicrosPerSecond }

  predicate CanonicalTime(t: Time) { 0 <= t.nsec < NanosPerSecond }

  /** A monotonic reading as the driver reports it: cut down to whole microseconds. */
  function ToMicros(t: Timespec): (v: Timeval)
    requires CanonicalSpec(t)
    ensures CanonicalVal(v)
    ensures v.sec == t.sec
    ensures 0 <= SpecNanos(t) - ValNanos(v) < NanosPerMicro
  {
    Timeval(t.sec, t.nsec / NanosPerMicro)
  }

  /**
   The offset from the monotonic clock to the wall clock (`get_reset_time`).
   `mono` is the CLOCK_MONOTONIC reading and `now` the ROS wall-clock reading.
   Seconds and nanoseconds are subtracted separately: the seconds are exact
   and the nanoseconds carry the rest, possibly negative.
   */
  function ResetTime(mono: Timespec, now: Time): (offset: Timespec)
    ensures SpecNanos(offset) == TimeNanos(now) - SpecNanos(mono)
    ensures offset.sec == now.sec - mono.sec
  {
    Timespec(now.sec - mono.sec, now.nsec - mono.nsec)
  }

  /**
   The header stamp of a frame: the driver's timestamp shifted into the wall
   clock domain, microseconds scaled to nanoseconds. No carry is taken from
   the nanoseconds into the seconds.
   */
  function FrameStamp(ts: Timeval, offset: Timespec): (stamp: Time)
    ensures TimeNanos(stamp) == ValNanos(ts) + SpecNanos(offset)
    ensures stamp.sec == ts.sec + offset.sec
  {
    Time(ts.sec + offset.sec, ts.usec * NanosPerMicro + offset.nsec)
  }

  /** The offset's nanoseconds are negative exactly when the wall reading's are the smaller. */
  lemma ResetTimeNoBorrow(mono: Timespec, now: Time)
    requires CanonicalSpec(mono) && CanonicalTime(now)
    ensures -NanosPerSecond < ResetTime(mono, now).nsec < NanosPerSecond
    ensures ResetTime(mono, now).nsec < 0 <==> now.nsec < mono.nsec
  {
  }

  /**
   Range of the stamp's nanosecond field for canonical inputs: from
   0 - (10^9 - 1) up to (10^6 - 1) * 1000 + (10^9 - 1), wider than one second.
   */
  lemma FrameStampNsecRange(ts: Timeval, mono: Timespec, now: Time)
    requires CanonicalVal(ts) && CanonicalSpec(mono) && CanonicalTime(now)
    ensures -999_999_999 <= FrameStamp(ts, ResetTime(mono, now)).nsec <= 1_999_998_999
  {
  }

  /** Both ends of that range are reached by canonical readings: the stamp is not normalised. */
  lemma FrameStampNotCanonical()
    ensures FrameStamp(Timeval(5, 0), ResetTime(Timespec(5, 999_999_999), Time(100, 0))) == Time(100, -999_999_999)
    ensures FrameStamp(Timeval(5, 999_999), ResetTime(Timespec(5, 0), Time(100, 999_999_999))) == Time(100, 1_999_998_999)
  {
  }

  /** Stamping preserves and reflects the order of frame timestamps. */
  lemma FrameStampOrder(t1: Timeval, t2: Timeval, offset: Timespec)
    ensures ValNanos(t1) <= ValNanos(t2) <==> TimeNanos(FrameStamp(t1, offset)) <= TimeNanos(FrameStamp(t2, offset))
    ensures ValNanos(t1) < ValNanos(t2) <==> TimeNanos(FrameStamp(t1, offset)) < TimeNanos(FrameStamp(t2, offset))
    ensures TimeNanos(FrameStamp(t2, offset)) - TimeNanos(FrameStamp(t1, offset)) == ValNanos(t2) - ValNanos(t1)
  {
  }

  /**
   Round trip at the reset instant: stamping the monotonic reading that set
   the offset, as the driver reports it in microseconds, gives back the wall
   reading in seconds, and in nanoseconds short by the dropped sub-microsecond part.
   */
  lemma RoundTripAtReset(mono: Timespec, now: Time)
    requires CanonicalSpec(mono)
    ensures FrameStamp(ToMicros(mono), ResetTime(mono, now)).sec == now.sec
    ensures FrameStamp(ToMicros(mono), ResetTime(mono, now)).nsec == now.nsec - mono.nsec % NanosPerMicro
    ensures 0 <= TimeNanos(now) - TimeNanos(FrameStamp(ToMicros(mono), ResetTime(mono, now))) < NanosPerMicro
  {
  }

  /**
   Accuracy for later frames. The monotonic clock is read first and the wall
   clock `gap` nanoseconds later, so the offset is `gap` too large. When the
   two clocks advance at the same rate after that, the stamp of a later
   monotonic instant `mono1` differs from the true wall time `now1` at that
   instant by at most the gap ahead and by less than one microsecond behind.
   */
  lemma FrameStampAccuracy(mono0: Timespec, now0: Time, gap: int, mono1: Timespec, now1: Time)
    requires CanonicalSpec(mono1)
    requires 0 <= gap
    requires TimeNanos(now1) - (TimeNanos(now0) - gap) == SpecNanos(mono1) - SpecNanos(mono0)
    ensures -gap <= TimeNanos(now1) - TimeNanos(FrameStamp(ToMicros(mono1), ResetTime(mono0, now0))) < NanosPerMicro - gap
  {
  }
}

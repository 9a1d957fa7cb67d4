// The timer arithmetic of timelib.c on `struct timeval` values.
//
// The clock is not read here: every operation that calls `gettimeofday`
// takes the current time as the parameter `now`. Results the source
// computes in `double` are exact reals.

module TimeLib {
  import opened General

  /** struct timeval: seconds and microseconds. */
  datatype Timeval = Timeval(sec: int, usec: int)

  /** The instant as a whole number of microseconds. */
  function Micros(t: Timeval): int
  {
    t.sec * 1_000_000 + t.usec
  }

  /** timelib_timer_diff: the milliseconds from t1 to t2. */
  function Diff(t1: Timeval, t2: Timeval): (ms: real)
    ensures ms * 1000.0 == (Micros(t2) - Micros(t1)) as real
  {
    (t2.sec - t1.sec) as real * 1000.0 + (t2.usec - t1.usec) as real / 1000.0
  }

  /** timelib_timer_get: the milliseconds elapsed since tv; tv itself is passed by value and stays as it was. */
  function TimerGet(tv: Timeval, now: Timeval): (ms: real)
    ensures ms == Diff(tv, now)
  {
    (now.sec - tv.sec) as real * 1000.0 + (now.usec - tv.usec) as real / 1000.0
  }

  /** timelib_timer_reset: the milliseconds elapsed since tv, and the timer's new value, which is now. */
  function TimerReset(tv: Timeval, now: Timeval): (r: (real, Timeval))
    ensures r.0 == TimerGet(tv, now) && r.1 == now
    ensures TimerGet(r.1, now) == 0.0
  {
    ((now.sec - tv.sec) as real * 1000.0 + (now.usec - tv.usec) as real / 1000.0, now)
  }

  /**
   * timelib_timer_add_ms: `ms * 1000` is computed in `unsigned int` and
   * so wraps modulo 2^32; then one carry into the seconds if the
   * microseconds reached a million.
   */
  function AddMs(tv: Timeval, ms: nat): (r: Timeval)
    ensures ms * 1000 < 0x1_0000_0000 ==> Micros(r) == Micros(tv) + ms * 1000
    ensures 0 <= tv.usec < 1_000_000 && ms < 1000 ==> 0 <= r.usec < 1_000_000
  {
    var usec := tv.usec + (ms * 1000) % 0x1_0000_0000;
    if usec >= 1_000_000 then Timeval(tv.sec + 1, usec - 1_000_000) else Timeval(tv.sec, usec)
  }

  /** timelib_unix_timestamp: the instant in milliseconds. */
  function UnixMs(now: Timeval): (ms: real)
    ensures ms * 1000.0 == Micros(now) as real
  {
    now.sec as real * 1000.0 + now.usec as real / 1000.0
  }

  lemma DiffSelf(t: Timeval)
    ensures Diff(t, t) == 0.0
  {
  }

  lemma DiffAntisymmetric(a: Timeval, b: Timeval)
    ensures Diff(a, b) == -Diff(b, a)
  {
  }

  /** Differences add up along a chain of instants. */
  lemma DiffChain(a: Timeval, b: Timeval, c: Timeval)
    ensures Diff(a, c) == Diff(a, b) + Diff(b, c)
  {
  }

  /** Only one carry is done: from a normalised value, adding a second or more leaves usec out of range. */
  lemma AddMsSingleCarry()
    ensures AddMs(Timeval(0, 999_000), 2000) == Timeval(1, 1_999_000)
  {
    assert (2000 * 1000) % 0x1_0000_0000 == 2_000_000;
  }
}

/**
 * `datetime.now()`. The wall clock is an arbitrary sequence of readings, fixed
 * when the clock is created: the n-th call returns `readings(n)`. No property of the
 * readings is relied on, not even that they increase (a wall clock may be
 * set back).
 */
module WallClock {

  /** A reading, in microseconds. */
  type Timestamp = nat

  class Clock {
    const readings: nat -> Timestamp
    var count: nat

    constructor (readings: nat -> Timestamp)
      ensures this.readings == readings && count == 0
    {
      this.readings := readings;
      count := 0;
    }

    /** The next reading. */
    method Now() returns (t: Timestamp)
      modifies this
      ensures t == readings(old(count))
      ensures count == old(count) + 1
    {
      t := readings(count);
      count := count + 1;
    }
  }
}

/** `datetime.utcnow()` as a monotone clock: every reading is at least the
    previous one, and nothing else is known about it. */
module Clock {

  class Clock {
    /** The last reading handed out. */
    var now: int

    constructor (start: int)
      ensures now == start
    {
      now := start;
    }

    method UtcNow() returns (t: int)
      modifies this
      ensures old(now) <= t && now == t
    {
      t :| t >= now;
      now := t;
    }
  }
}

/** The per-class `itertools.count()` objects that number new devices. They
    are process-wide class attributes in the source; here each is an object
    that the constructors and the resynchronisation are handed explicitly. */
module IdCounters {

  /** `itertools.count(start)`: yields `start`, `start + 1`, ... */
  class IdCounter {
    var next: nat

    constructor (start: nat)
      ensures next == start
    {
      next := start;
    }

    /** `next(counter)`. */
    method Next() returns (n: nat)
      modifies this
      ensures n == old(next) && next == old(next) + 1
    {
      n := next;
      next := next + 1;
    }
  }
}

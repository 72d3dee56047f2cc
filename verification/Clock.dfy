/** The deterministic clock every service shares. */
module Clock {

  const EPOCH_START := 1_700_000_000_000

  class ClockService {
    var t: int

    constructor ()
      ensures t == EPOCH_START
    {
      t := EPOCH_START;
    }

    method Now() returns (tick: int)
      modifies this
      ensures tick == t == old(t) + 1
    {
      t := t + 1;
      tick := t;
    }
  }
}

/** Remote calls that fail. */
module Faults {

  /** What becomes of one call: done, not done, or done with the answer lost. */
  datatype Fate = Acknowledged | Refused | Unacknowledged

  /** The fates of the calls of one request, in order; calls past the end go well. */
  type Fates = seq<Fate>

  const SMOOTH: Fates := []

  function FateAt(net: Fates, i: nat): Fate {
    if i < |net| then net[i] else Acknowledged
  }

  /** A read has nothing to lose but its answer. */
  function Answered(fate: Fate): bool { fate == Acknowledged }
}

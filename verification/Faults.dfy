/** How calls to a server may go: a schedule of faults is used up call by call. */
module Faults {
  /** A refused call has no effect, be it turned away or lost; a lost answer is an error to the caller only. */
  datatype Fault = NoFault | Refused | AnswerLost

  /** The fault of the next call; when the schedule runs out, calls succeed. */
  function Head(faults: seq<Fault>): Fault {
    if faults == [] then NoFault else faults[0]
  }

  function Tail(faults: seq<Fault>): seq<Fault> {
    if faults == [] then [] else faults[1..]
  }

  /** How the k-th call from now goes. */
  function FaultAt(faults: seq<Fault>, k: nat): Fault {
    if k < |faults| then faults[k] else NoFault
  }

  /** Calls `from` to `to`, without the last, all succeed. */
  ghost predicate FaultFree(faults: seq<Fault>, from: nat, to: nat) {
    forall k | from <= k < to :: FaultAt(faults, k) == NoFault
  }

  lemma TailShifts(faults: seq<Fault>)
    ensures Head(faults) == FaultAt(faults, 0)
    ensures forall k: nat :: FaultAt(Tail(faults), k) == FaultAt(faults, k + 1)
  {
  }
}

/**
 The lease of one backend as the SDK instances that share its credential see it: a slot that is free or held by one
 connection. `Fleet` runs on this slot; `SessionHands.StepsMoveTheSlot` proves that it is what every step of the gateway
 does to every backend.
 */
module Slot {
  import opened Basics

  /** The close code of a replacement, which an SDK does not retry after. */
  const CLOSE_REPLACED := 4001

  datatype Move = Stutter | Release | Take(taker: nat)

  /** The newest accepted hello wins. */
  function After(holder: Option<nat>, move: Move): Option<nat> {
    match move
    case Stutter => holder
    case Release => None
    case Take(taker) => Some(taker)
  }

  /** Whom the gateway closes with `CLOSE_REPLACED`. */
  function Dismissed(holder: Option<nat>, move: Move): Option<nat> {
    if move.Take? then holder else None
  }
}

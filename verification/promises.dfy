/** The state of a JavaScript promise as the caller observes it. A promise
    settles at most once: `resolve` or `reject` on a settled promise does
    nothing, so the first settlement wins. */
module Promises {
  import opened Transport

  /** Why a promise rejected: a message of the provider's own, or an error
      passed on unchanged from the transport. */
  datatype Reason = Message(text: string) | Failed(error: TransportError)

  datatype Settlement<+T> = Pending | Resolved(value: T) | Rejected(reason: Reason)

  /** Offers `next` to the promise in state `p`. */
  function Settle<T>(p: Settlement<T>, next: Settlement<T>): (r: Settlement<T>)
    ensures !p.Pending? ==> r == p
    ensures p.Pending? ==> r == next
  {
    if p.Pending? then next else p
  }

  /** A later offer never changes the outcome of an earlier one. */
  lemma SettleFirstWins<T>(p: Settlement<T>, a: Settlement<T>, b: Settlement<T>)
    requires !a.Pending?
    ensures Settle(Settle(p, a), b) == Settle(p, a)
  {
  }
}

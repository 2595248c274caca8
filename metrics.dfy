/** The operation counters the generator bumps for every transaction it
    tries to create: an injected sink instead of a process-wide global. */
module Metrics {

  class OpCounter {
    var requested: nat
    var created: nat
    var signFailed: nat

    constructor ()
      ensures requested == 0 && created == 0 && signFailed == 0
    {
      requested, created, signFailed := 0, 0, 0;
    }

    /** Every requested transaction was either created or failed to sign. */
    predicate Balanced()
      reads this
    {
      requested == created + signFailed
    }
  }
}

/** A sealed predicate has the form `forall k: nat :: Unseal(k) ==> P`: it is equivalent to P, but
    the verifier looks inside it only where a proof mentions `Unseal(0)`. */
module Sealing {
  predicate Unseal(k: nat) {
    true
  }
}

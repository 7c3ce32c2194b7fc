/** Products. */
module Arithmetic {

  lemma MulMonotone(a: nat, x: nat, y: nat)
    ensures x <= y ==> a * x <= a * y
  {
  }
}

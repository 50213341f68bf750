/** Multiples as sums, to keep products of two variables out of proofs. */
module Multiples {

  /** i times n. */
  function Multiple(i: nat, n: nat): nat {
    if i == 0 then 0 else Multiple(i - 1, n) + n
  }

  lemma {:induction false} MultipleIsProduct(i: nat, n: nat)
    ensures Multiple(i, n) == i * n
  {
    if i > 0 {
      MultipleIsProduct(i - 1, n);
    }
  }

  lemma {:induction false} MultipleOrder(i: nat, j: nat, n: nat)
    requires i < j
    ensures Multiple(i, n) + n == Multiple(i + 1, n) <= Multiple(j, n)
  {
    if i + 1 < j {
      MultipleOrder(i, j - 1, n);
    }
  }
}

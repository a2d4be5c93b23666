/** Going from one index to a later one, step by step. */
module Steps {

  lemma {:induction false} Climb(holds: nat -> bool, i: nat, j: nat)
    requires i <= j && holds(i) && forall k: nat, next: nat | i <= k < j && next == k + 1 && holds(k) :: holds(next)
    ensures holds(j)
    decreases j
  {
    if i < j {
      Climb(holds, i, j - 1);
    }
  }
}

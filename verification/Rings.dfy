/** Where the k-th item put into a ring of `n` slots lies. */
module Rings {

  function Slot(k: nat, n: nat): (i: nat)
    requires n > 0
    ensures i < n
  {
    if k < n then k else Slot(k - n, n)
  }

  lemma {:induction false} NextSlot(k: nat, n: nat)
    requires n > 0
    ensures Slot(k + 1, n) == if Slot(k, n) + 1 == n then 0 else Slot(k, n) + 1
    decreases k
  {
    if k >= n {
      NextSlot(k - n, n);
    }
  }

  lemma {:induction false} SlotsDistinct(i: nat, j: nat, n: nat)
    requires n > 0 && i < j < i + n
    ensures Slot(i, n) != Slot(j, n)
    decreases i
  {
    if i >= n {
      SlotsDistinct(i - n, j - n, n);
    }
  }
}

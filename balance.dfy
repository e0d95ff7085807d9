/**
 * The balance context: one number held in memory, lowered by
 * `deductBalance` (never below zero) and raised by `addBalance`. JavaScript
 * numbers are modelled as exact reals.
 */
module Balance {

  const InitialBalance: real := 54.0

  /** `Math.max(0, prev - amount)`. */
  function Deducted(prev: real, amount: real): (r: real)
    ensures r >= 0.0
    ensures amount <= prev ==> r == prev - amount
    ensures amount > prev ==> r == 0.0
  {
    if 0.0 > prev - amount then 0.0 else prev - amount
  }

  /** Adding an amount and then deducting it restores a non-negative balance; no sign check is needed. */
  lemma AddThenDeduct(prev: real, amount: real)
    requires prev >= 0.0
    ensures Deducted(prev + amount, amount) == prev
  {
  }

  class BalanceStore {
    var balance: real

    constructor()
      ensures balance == InitialBalance
    {
      balance := InitialBalance;
    }

    /** `deductBalance`. */
    method Deduct(amount: real)
      modifies this
      ensures balance == Deducted(old(balance), amount)
    {
      balance := if 0.0 > balance - amount then 0.0 else balance - amount;
    }

    /** `addBalance`: no sign check. */
    method Add(amount: real)
      modifies this
      ensures balance == old(balance) + amount
    {
      balance := balance + amount;
    }
  }
}

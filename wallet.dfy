/**
 * CurrencyManager: the player's integer balance, raised by `AddMoney`
 * (negative amounts ignored) and lowered by `TrySpend` (refused when the
 * balance would go negative).
 */
module Wallet {

  /** An amount as `AddMoney` counts it: negative amounts add nothing. */
  function Credit(amount: int): int {
    if amount < 0 then 0 else amount
  }

  /** Whether `TrySpend(amount)` succeeds on balance `money`. */
  predicate CanSpend(money: int, amount: int) {
    amount <= 0 || amount <= money
  }

  /** The balance after `TrySpend(amount)` on balance `money`. */
  function AfterSpend(money: int, amount: int): (m: int)
    ensures !CanSpend(money, amount) ==> m == money
    ensures amount <= 0 ==> m == money
    ensures CanSpend(money, amount) && amount > 0 ==> m == money - amount
    ensures money >= 0 ==> m >= 0
  {
    if amount > 0 && amount <= money then money - amount else money
  }

  /** A call on the wallet, for reasoning about sequences of calls. */
  datatype Call = AddMoney(amount: int) | TrySpend(amount: int)

  function Apply(money: int, c: Call): int {
    match c
    case AddMoney(a) => money + Credit(a)
    case TrySpend(a) => AfterSpend(money, a)
  }

  /** The balance after the calls `cs`, in order. */
  function Run(money: int, cs: seq<Call>): int {
    if cs == [] then money else Apply(Run(money, cs[..|cs| - 1]), cs[|cs| - 1])
  }

  /** Starting from a non-negative balance (the initial 0), no sequence of calls makes it negative. */
  lemma {:induction false} RunNeverNegative(money: int, cs: seq<Call>)
    requires money >= 0
    ensures Run(money, cs) >= 0
  {
    if cs != [] {
      RunNeverNegative(money, cs[..|cs| - 1]);
    }
  }

  /** A spend the wallet accepts, refunded by `AddMoney` of the same price, leaves the balance as it was. */
  lemma SpendThenRefund(money: int, price: int)
    requires CanSpend(money, price)
    ensures Apply(Apply(money, TrySpend(price)), AddMoney(price)) == money
  {
  }

  class CurrencyManager {
    var money: int

    ghost predicate Valid()
      reads this
    {
      money >= 0
    }

    constructor ()
      ensures Valid() && money == 0
    {
      money := 0;
    }

    /** `Money`: the balance. */
    function Money(): (m: int)
      reads this
      ensures Valid() ==> m >= 0
    {
      money
    }

    /** `AddMoney`: the balance grows by `max(0, amount)`. */
    method AddMoney(amount: int)
      requires Valid()
      modifies this
      ensures Valid()
      ensures money == Apply(old(money), Call.AddMoney(amount))
      ensures money == old(money) + Credit(amount) && money >= old(money)
    {
      money := money + Credit(amount);
    }

    /**
     * `TrySpend`: a non-positive amount succeeds and costs nothing; an amount
     * above the balance fails and costs nothing; otherwise the amount is
     * taken and the call succeeds.
     */
    method TrySpend(amount: int) returns (ok: bool)
      requires Valid()
      modifies this
      ensures Valid()
      ensures ok == CanSpend(old(money), amount)
      ensures money == Apply(old(money), Call.TrySpend(amount))
      ensures amount <= 0 ==> ok && money == old(money)
      ensures amount > old(money) ==> !ok && money == old(money)
      ensures 0 < amount <= old(money) ==> ok && money == old(money) - amount
    {
      if amount <= 0 {
        return true;
      }
      if money < amount {
        return false;
      }
      money := money - amount;
      return true;
    }
  }
}

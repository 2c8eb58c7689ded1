/**
 * The simulated wallet: one USDT and one BTC balance, created once with
 * 1000 USDT and no BTC, changed only by deposits and withdrawals of an
 * amount.  There is no lower bound: a withdrawal may make a balance negative.
 */
module Wallet {

  /** The two balances as a value. */
  datatype Balances = Balances(usdt: real, btc: real)

  const InitialBalances: Balances := Balances(1000.0, 0.0)

  /** The value effect of `depositUsdt`. */
  function CreditUsdt(b: Balances, amount: real): Balances
  {
    b.(usdt := b.usdt + amount)
  }

  /** The value effect of `withdrawUsdt`. */
  function DebitUsdt(b: Balances, amount: real): Balances
  {
    b.(usdt := b.usdt - amount)
  }

  /** The value effect of `depositBtc`. */
  function CreditBtc(b: Balances, amount: real): Balances
  {
    b.(btc := b.btc + amount)
  }

  /** The value effect of `withdrawBtc`. */
  function DebitBtc(b: Balances, amount: real): Balances
  {
    b.(btc := b.btc - amount)
  }

  /**
   * Each operation moves one balance by exactly the amount and leaves the
   * other alone; a withdrawal undoes a deposit of the same amount.
   */
  lemma LedgerRules(b: Balances, amount: real)
    ensures CreditUsdt(b, amount).btc == b.btc && CreditUsdt(b, amount).usdt - b.usdt == amount
    ensures DebitUsdt(b, amount).btc == b.btc && b.usdt - DebitUsdt(b, amount).usdt == amount
    ensures CreditBtc(b, amount).usdt == b.usdt && CreditBtc(b, amount).btc - b.btc == amount
    ensures DebitBtc(b, amount).usdt == b.usdt && b.btc - DebitBtc(b, amount).btc == amount
    ensures DebitUsdt(CreditUsdt(b, amount), amount) == b
    ensures DebitBtc(CreditBtc(b, amount), amount) == b
  {
  }

  /** Nothing prevents overdrawing: withdrawing more than the balance leaves it negative. */
  lemma NoLowerBound(b: Balances, amount: real)
    requires amount > b.usdt
    ensures DebitUsdt(b, amount).usdt < 0.0
  {
  }

  class Wallet {
    var usdtBalance: real
    var btcBalance: real

    function Contents(): Balances
      reads this
    {
      Balances(usdtBalance, btcBalance)
    }

    /** 1000 USDT and no BTC. */
    constructor()
      ensures Contents() == InitialBalances
    {
      usdtBalance := 1000.0;
      btcBalance := 0.0;
    }

    method DepositUsdt(amount: real)
      modifies this
      ensures Contents() == CreditUsdt(old(Contents()), amount)
    {
      usdtBalance := usdtBalance + amount;
    }

    method WithdrawUsdt(amount: real)
      modifies this
      ensures Contents() == DebitUsdt(old(Contents()), amount)
    {
      usdtBalance := usdtBalance - amount;
    }

    method DepositBtc(amount: real)
      modifies this
      ensures Contents() == CreditBtc(old(Contents()), amount)
    {
      btcBalance := btcBalance + amount;
    }

    method WithdrawBtc(amount: real)
      modifies this
      ensures Contents() == DebitBtc(old(Contents()), amount)
    {
      btcBalance := btcBalance - amount;
    }
  }

  /** The holder of the lazily created single wallet (the class's static field). */
  class WalletRegistry {
    var instance: Wallet?

    constructor()
      ensures instance == null
    {
      instance := null;
    }

    /** `getInstance`: creates the wallet on the first call and returns that same object ever after. */
    method GetInstance() returns (w: Wallet)
      modifies this
      ensures instance == w
      ensures old(instance) != null ==> w == old(instance)
      ensures old(instance) == null ==> fresh(w) && w.Contents() == InitialBalances
    {
      if instance == null {
        instance := new Wallet();
      }
      w := instance;
    }
  }
}

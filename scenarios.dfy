/**
 * Request sequences a client can reason about from the controller's
 * contracts alone.
 */
module Scenarios {
  import opened Wrappers
  import Schema
  import T = TransactionModel
  import W = WalletModel
  import opened LedgerSpec
  import opened WalletController

  /** An empty wallet refuses a withdrawal of 50.00 and still holds 0.00. */
  method EmptyWalletRefusesWithdrawal()
  {
    var ledger := new Ledger();
    var w := ledger.OpenWallet(7);
    assert FindWallet(ledger.wallets, 7) == Some(0);
    var refused := ledger.Withdraw(7, 50_00);
    assert refused == Err(InsufficientFunds);
    var balance := ledger.GetBalance(7);
    assert balance == Ok(0);
  }

  /** A wallet for user 7 funded by a captured deposit of 100.00. */
  method FundedWallet() returns (ledger: Ledger)
    ensures fresh(ledger) && ledger.Valid()
    ensures ledger.wallets == [W.Wallet(0, 7, 100_00)]
    ensures ledger.transactions == [DepositRecord(1, 0, Capture("ORD1", 100_00))]
    ensures ledger.tick == 2
  {
    ledger := new Ledger();
    var w := ledger.OpenWallet(7);
    assert ledger.wallets == [W.Wallet(0, 7, 0)] && ledger.transactions == [];
    assert FindWallet(ledger.wallets, 7) == Some(0);
    assert Schema.FitsVarchar("ORD1");
    var funded := ledger.Fund(7, Some(Capture("ORD1", 100_00)));
    assert funded == Ok(100_00);
  }

  /**
   * A captured deposit of 100.00 and a withdrawal of 40.00 leave 60.00, and
   * the history lists the withdrawal before the deposit.
   */
  method DepositThenWithdraw()
  {
    var ledger := FundedWallet();
    var dep := DepositRecord(1, 0, Capture("ORD1", 100_00));
    assert FindWallet(ledger.wallets, 7) == Some(0);

    var withdrawn := ledger.Withdraw(7, 40_00);
    assert withdrawn == Ok(60_00);
    var wd := WithdrawalRecord(2, 0, 40_00);
    assert ledger.transactions == [dep, wd];
    assert FindWallet(ledger.wallets, 7) == Some(0);

    assert History([dep, wd], 0) == [wd, dep] by {
      assert [dep, wd][1..] == [wd];
      assert History([wd], 0) == [wd] by { assert [wd][1..] == []; }
    }
    var history := ledger.GetTransactionHistory(7);
    assert history == Ok([wd, dep]);
  }

  /** Emptying a wallet exactly is allowed: the check is strict. */
  method WithdrawEverything()
  {
    var ledger := new Ledger();
    var w := ledger.OpenWallet(1);
    var funded := ledger.Fund(1, Some(Capture("ORD2", 25_50)));
    var withdrawn := ledger.Withdraw(1, 25_50);
    assert withdrawn == Ok(0);
  }

  /** The same capture reported twice is credited twice: capture ids are not deduplicated. */
  method RepeatedCaptureCreditsTwice()
  {
    var ledger := new Ledger();
    var w := ledger.OpenWallet(3);
    var first := ledger.Fund(3, Some(Capture("ORD3", 10_00)));
    var second := ledger.Fund(3, Some(Capture("ORD3", 10_00)));
    assert second == Ok(20_00);
  }

  /** A negative withdrawal amount passes the balance check and raises the balance. */
  method NegativeWithdrawalCredits()
  {
    var ledger := new Ledger();
    var w := ledger.OpenWallet(4);
    var withdrawn := ledger.Withdraw(4, -5_00);
    assert withdrawn == Ok(5_00);
  }
}

/**
 * The wallet controller with the database and PayPal reduced to values: a
 * ledger object holding the Wallet and Transaction tables, and one method per
 * request handler. A provider call becomes an input carrying what the
 * provider answered.
 */
module WalletController {
  import opened Wrappers
  import opened Schema
  import T = TransactionModel
  import W = WalletModel
  import opened LedgerSpec

  /** Why a request fails. Every one but InsufficientFunds is answered with status 500. */
  datatype Failure =
    | WalletNotFound                      // `findOne` gave null and the handler dereferenced it
    | InsufficientFunds                   // the 400 answer of `withdraw`
    | ProviderFailed                      // the PayPal call threw
    | RecordRejected(cause: SchemaError)  // `Transaction.create` failed; nothing was written
    | SaveRejected(cause: SchemaError)    // the record was written, then `wallet.save` failed

  /** What a successful PayPal capture reports: its id and the captured amount in cents. */
  datatype Capture = Capture(id: string, amount: int)

  /** The row `withdraw` records. */
  function WithdrawalRecord(id: nat, walletId: nat, amount: int): T.Transaction
  {
    T.Transaction(id, walletId, T.Withdrawal, amount, T.Completed, None, Some("Withdrawal to bank account"), id)
  }

  /** The row `fundWallet` records. */
  function DepositRecord(id: nat, walletId: nat, c: Capture): T.Transaction
  {
    T.Transaction(id, walletId, T.Deposit, c.amount, T.Completed, Some(c.id), Some("PayPal deposit"), id)
  }

  /**
   * The attributes `withdraw` passes to `Transaction.create` give its row, or
   * are refused when the amount does not fit the column.
   */
  lemma WithdrawalRow(id: nat, walletId: nat, amount: int)
    ensures T.Create(id, id, T.Attrs(Some(walletId), Some("WITHDRAWAL"), Some(amount), Some("COMPLETED"),
                                     None, Some("Withdrawal to bank account")))
         == if FitsDecimal(amount) then Ok(WithdrawalRecord(id, walletId, amount)) else Err(OutOfRange("amount"))
  {
  }

  /**
   * The attributes `fundWallet` passes to `Transaction.create` give its row, or
   * are refused when the captured amount or the capture id does not fit its
   * column.
   */
  lemma DepositRow(id: nat, walletId: nat, c: Capture)
    ensures T.Create(id, id, T.Attrs(Some(walletId), Some("DEPOSIT"), Some(c.amount), Some("COMPLETED"),
                                     Some(c.id), Some("PayPal deposit")))
         == if !FitsDecimal(c.amount) then Err(OutOfRange("amount"))
            else if !FitsVarchar(c.id) then Err(TooLong("paypalTransactionId"))
            else Ok(DepositRecord(id, walletId, c))
  {
  }

  class Ledger {
    /** The Wallet table, in insertion order. */
    var wallets: seq<W.Wallet>
    /** The Transaction table, in insertion order. */
    var transactions: seq<T.Transaction>
    /** Logical clock: each inserted row takes it as primary key and creation time, then it advances. */
    var tick: nat

    /** What the schemas and the key constraints guarantee of the stored tables. */
    ghost predicate Valid()
      reads this
    {
      && (forall i :: 0 <= i < |wallets| ==> W.Valid(wallets[i]) && wallets[i].id < tick)
      && DistinctWalletIds(wallets)
      && (forall i :: 0 <= i < |transactions| ==>
            && T.Valid(transactions[i])
            && transactions[i].id < tick && transactions[i].createdAt < tick
            && HasWallet(wallets, transactions[i].walletId))
      && DistinctTransactionIds(transactions)
      && CreatedInOrder(transactions)
    }

    constructor ()
      ensures Valid() && Reconciled(wallets, transactions)
      ensures wallets == [] && transactions == [] && tick == 0
    {
      wallets, transactions, tick := [], [], 0;
    }

    /** `Wallet.create({ userId })`: a new wallet at the schema's default balance. */
    method OpenWallet(userId: nat) returns (w: W.Wallet)
      requires Valid()
      modifies this
      ensures Valid()
      ensures w.userId == userId && w.balance == 0 && w.id == old(tick)
      ensures forall i :: 0 <= i < |old(wallets)| ==> old(wallets)[i].id != w.id
      ensures wallets == old(wallets) + [w] && transactions == old(transactions) && tick == old(tick) + 1
      ensures old(Reconciled(wallets, transactions)) ==> Reconciled(wallets, transactions)
    {
      var created := W.Create(tick, W.Attrs(Some(userId), None));
      w := created.value;
      if Reconciled(wallets, transactions) {
        OpeningKeepsReconciled(wallets, transactions, w);
      }
      wallets := wallets + [w];
      tick := tick + 1;
      KeepsOwners(old(wallets), wallets, transactions);
    }

    /** `getBalance`: the balance of the user's wallet. */
    method GetBalance(userId: nat) returns (r: Result<int, Failure>)
      requires Valid()
      ensures r.Err? <==> FindWallet(wallets, userId).None?
      ensures r.Err? ==> r.error == WalletNotFound
      ensures r.Ok? ==>
        var w := wallets[FindWallet(wallets, userId).value];
        && r.value == w.balance
        && 0 <= r.value <= MaxCents
        && (Reconciled(wallets, transactions) ==> r.value == Net(transactions, w.id))
    {
      var found := FindWallet(wallets, userId);
      if found.None? {
        return Err(WalletNotFound);
      }
      r := Ok(wallets[found.value].balance);
    }

    /**
     * `createPayPalOrder`: asks the provider for an order and reports its id.
     * The amount goes to the provider only; the ledger is not touched.
     */
    method CreatePayPalOrder(amount: int, providerOrderId: Option<string>) returns (r: Result<string, Failure>)
      ensures r.Ok? <==> providerOrderId.Some?
      ensures r.Ok? ==> r.value == providerOrderId.value
      ensures r.Err? ==> r.error == ProviderFailed
    {
      if providerOrderId.None? {
        return Err(ProviderFailed);
      }
      r := Ok(providerOrderId.value);
    }

    /**
     * `fundWallet`: credits the user's wallet with what the provider captured,
     * recording a COMPLETED DEPOSIT that carries the capture's id. `capture` is
     * None when the capture call threw. The record is inserted before the
     * balance is saved, and nothing undoes it if the save fails.
     */
    method Fund(userId: nat, capture: Option<Capture>) returns (r: Result<int, Failure>)
      requires Valid()
      modifies this
      ensures Valid()
      ensures capture.None? ==>
        r == Err(ProviderFailed) && wallets == old(wallets) && transactions == old(transactions) && tick == old(tick)
      ensures capture.Some? && FindWallet(old(wallets), userId).None? ==>
        r == Err(WalletNotFound) && wallets == old(wallets) && transactions == old(transactions) && tick == old(tick)
      ensures capture.Some? && FindWallet(old(wallets), userId).Some? ==>
        var c := capture.value;
        var k := FindWallet(old(wallets), userId).value;
        var before := old(wallets)[k];
        var after := before.balance + c.amount;
        var record := DepositRecord(old(tick), before.id, c);
        && (!(FitsDecimal(c.amount) && FitsVarchar(c.id)) ==>
              r.Err? && r.error.RecordRejected? && wallets == old(wallets) && transactions == old(transactions) && tick == old(tick))
        && (FitsDecimal(c.amount) && FitsVarchar(c.id) && !(0 <= after && FitsDecimal(after)) ==>
              r.Err? && r.error.SaveRejected? && wallets == old(wallets) && transactions == old(transactions) + [record] && tick == old(tick) + 1)
        && (FitsDecimal(c.amount) && FitsVarchar(c.id) && 0 <= after && FitsDecimal(after) ==>
              && r == Ok(after)
              && wallets == old(wallets)[k := before.(balance := after)]
              && transactions == old(transactions) + [record] && tick == old(tick) + 1)
      ensures old(Reconciled(wallets, transactions)) && !(r.Err? && r.error.SaveRejected?) ==>
        Reconciled(wallets, transactions)
    {
      var found := FindWallet(wallets, userId);
      if capture.None? {
        return Err(ProviderFailed);
      }
      if found.None? {
        return Err(WalletNotFound);
      }
      var c := capture.value;
      var k := found.value;
      var wallet := wallets[k];
      DepositRow(tick, wallet.id, c);
      var created := T.Create(tick, tick, T.Attrs(Some(wallet.id), Some("DEPOSIT"), Some(c.amount),
                                                 Some("COMPLETED"), Some(c.id), Some("PayPal deposit")));
      if created.Err? {
        return Err(RecordRejected(created.error));
      }
      r := Commit(k, created.value, wallet.balance + c.amount);
    }

    /**
     * `withdraw`: refuses when the balance is below the amount, and otherwise
     * records a COMPLETED WITHDRAWAL and lowers the balance by the amount. The
     * amount is not required to be positive. The record is inserted before
     * the balance is saved, and nothing undoes it if the save fails.
     */
    method Withdraw(userId: nat, amount: int) returns (r: Result<int, Failure>)
      requires Valid()
      modifies this
      ensures Valid()
      ensures FindWallet(old(wallets), userId).None? ==>
        r == Err(WalletNotFound) && wallets == old(wallets) && transactions == old(transactions) && tick == old(tick)
      ensures FindWallet(old(wallets), userId).Some? ==>
        var k := FindWallet(old(wallets), userId).value;
        var before := old(wallets)[k];
        var after := before.balance - amount;
        var record := WithdrawalRecord(old(tick), before.id, amount);
        && (before.balance < amount ==>
              r == Err(InsufficientFunds) && wallets == old(wallets) && transactions == old(transactions) && tick == old(tick))
        && (amount == before.balance ==> FitsDecimal(amount) && FitsDecimal(after) && r == Ok(0))
        && (amount <= before.balance && !FitsDecimal(amount) ==>
              r.Err? && r.error.RecordRejected? && wallets == old(wallets) && transactions == old(transactions) && tick == old(tick))
        && (amount <= before.balance && FitsDecimal(amount) && !FitsDecimal(after) ==>
              r.Err? && r.error.SaveRejected? && wallets == old(wallets) && transactions == old(transactions) + [record] && tick == old(tick) + 1)
        && (amount <= before.balance && FitsDecimal(amount) && FitsDecimal(after) ==>
              && r == Ok(after) && 0 <= after
              && wallets == old(wallets)[k := before.(balance := after)]
              && transactions == old(transactions) + [record] && tick == old(tick) + 1)
      ensures old(Reconciled(wallets, transactions)) && !(r.Err? && r.error.SaveRejected?) ==>
        Reconciled(wallets, transactions)
    {
      var found := FindWallet(wallets, userId);
      if found.None? {
        return Err(WalletNotFound);
      }
      var k := found.value;
      var wallet := wallets[k];
      if wallet.balance < amount {
        return Err(InsufficientFunds);
      }
      WithdrawalRow(tick, wallet.id, amount);
      var created := T.Create(tick, tick, T.Attrs(Some(wallet.id), Some("WITHDRAWAL"), Some(amount),
                                                 Some("COMPLETED"), None, Some("Withdrawal to bank account")));
      if created.Err? {
        return Err(RecordRejected(created.error));
      }
      r := Commit(k, created.value, wallet.balance - amount);
    }

    /**
     * The shared tail of `fundWallet` and `withdraw`: insert the record, then
     * move the wallet's balance by its amount and save. A failed save leaves
     * the record in place.
     */
    method Commit(k: nat, record: T.Transaction, balance: int) returns (r: Result<int, Failure>)
      requires Valid() && T.Valid(record) && record.status == T.Completed
      requires k < |wallets| && record.walletId == wallets[k].id
      requires record.id == tick && record.createdAt == tick
      requires balance == Posted(wallets[k].balance, record)
      modifies this
      ensures Valid()
      ensures transactions == old(transactions) + [record] && tick == old(tick) + 1
      ensures r.Ok? <==> 0 <= balance && FitsDecimal(balance)
      ensures r.Ok? ==> r.value == balance && wallets == old(wallets)[k := old(wallets)[k].(balance := balance)]
      ensures r.Err? ==> r.error.SaveRejected? && wallets == old(wallets)
      ensures r.Ok? && old(Reconciled(wallets, transactions)) ==> Reconciled(wallets, transactions)
    {
      var wallet := wallets[k];
      Insert(record, k);
      var saved := W.SetBalance(wallet, balance);
      if saved.Err? {
        return Err(SaveRejected(saved.error));
      }
      if old(Reconciled(wallets, transactions)) {
        PostingKeepsReconciled(old(wallets), old(transactions), k, record);
      }
      Store(k, saved.value);
      r := Ok(saved.value.balance);
    }

    /** Appends a record for wallet `k` stamped with the current tick, and advances the clock. */
    method Insert(record: T.Transaction, k: nat)
      requires Valid() && T.Valid(record)
      requires k < |wallets| && record.walletId == wallets[k].id
      requires record.id == tick && record.createdAt == tick
      modifies this
      ensures Valid()
      ensures transactions == old(transactions) + [record] && wallets == old(wallets) && tick == old(tick) + 1
    {
      transactions := transactions + [record];
      tick := tick + 1;
    }

    /** Writes wallet `k` back with a new balance. */
    method Store(k: nat, w: W.Wallet)
      requires Valid() && W.Valid(w)
      requires k < |wallets| && w.id == wallets[k].id
      modifies this
      ensures Valid()
      ensures wallets == old(wallets)[k := w] && transactions == old(transactions) && tick == old(tick)
    {
      wallets := wallets[k := w];
      KeepsOwners(old(wallets), wallets, transactions);
    }

    /**
     * `getTransactionHistory`: the rows of the user's wallet and no other,
     * newest first.
     */
    method GetTransactionHistory(userId: nat) returns (r: Result<seq<T.Transaction>, Failure>)
      requires Valid()
      ensures r.Err? <==> FindWallet(wallets, userId).None?
      ensures r.Err? ==> r.error == WalletNotFound
      ensures r.Ok? ==>
        var id := wallets[FindWallet(wallets, userId).value].id;
        && r.value == History(transactions, id)
        && (forall t :: t in r.value <==> t in transactions && t.walletId == id)
        && (forall i, j :: 0 <= i < j < |r.value| ==> r.value[i].createdAt > r.value[j].createdAt)
    {
      var found := FindWallet(wallets, userId);
      if found.None? {
        return Err(WalletNotFound);
      }
      var id := wallets[found.value].id;
      HistoryMembers(transactions, id);
      HistoryNewestFirst(transactions, id);
      r := Ok(History(transactions, id));
    }
  }

  /**
   * Updating wallet rows in place or adding new ones keeps every foreign key
   * pointing at a stored wallet.
   */
  lemma KeepsOwners(ws: seq<W.Wallet>, ws': seq<W.Wallet>, txs: seq<T.Transaction>)
    requires |ws'| >= |ws| && forall i :: 0 <= i < |ws| ==> ws'[i].id == ws[i].id
    requires forall i :: 0 <= i < |txs| ==> HasWallet(ws, txs[i].walletId)
    ensures forall i :: 0 <= i < |txs| ==> HasWallet(ws', txs[i].walletId)
  {
    forall i | 0 <= i < |txs|
      ensures HasWallet(ws', txs[i].walletId)
    {
      var j :| 0 <= j < |ws| && ws[j].id == txs[i].walletId;
      assert ws'[j].id == txs[i].walletId;
    }
  }
}

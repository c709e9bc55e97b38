/**
 * The ledger's meaning, stated on the two tables as values: which wallet a
 * user's request reaches, what the recorded transactions add up to, and the
 * order in which a wallet's history is listed.
 */
module LedgerSpec {
  import opened Wrappers
  import T = TransactionModel
  import W = WalletModel

  /**
   * `Wallet.findOne({ where: { userId } })`: the position of the earliest
   * wallet owned by `userId`, or None when the user has no wallet.
   */
  function FindWallet(ws: seq<W.Wallet>, userId: nat): (r: Option<nat>)
    ensures r.Some? ==> r.value < |ws| && ws[r.value].userId == userId
    ensures r.Some? ==> forall j :: 0 <= j < r.value ==> ws[j].userId != userId
    ensures r.None? ==> forall j :: 0 <= j < |ws| ==> ws[j].userId != userId
  {
    if ws == [] then None
    else if ws[0].userId == userId then Some(0)
    else match FindWallet(ws[1..], userId)
      case None => None
      case Some(i) => Some(i + 1)
  }

  /** Primary keys of the Wallet table are distinct. */
  predicate DistinctWalletIds(ws: seq<W.Wallet>)
  {
    forall i, j :: 0 <= i < j < |ws| ==> ws[i].id != ws[j].id
  }

  /** The foreign key of a transaction names a stored wallet. */
  predicate HasWallet(ws: seq<W.Wallet>, walletId: nat)
  {
    exists i :: 0 <= i < |ws| && ws[i].id == walletId
  }

  /** Primary keys of the Transaction table are distinct. */
  predicate DistinctTransactionIds(txs: seq<T.Transaction>)
  {
    forall i, j :: 0 <= i < j < |txs| ==> txs[i].id != txs[j].id
  }

  /** Rows were inserted in creation order, no two at the same instant. */
  predicate CreatedInOrder(txs: seq<T.Transaction>)
  {
    forall i, j :: 0 <= i < j < |txs| ==> txs[i].createdAt < txs[j].createdAt
  }

  /** What `t` adds to the total of completed `kind` transactions of wallet `walletId`. */
  function Contribution(t: T.Transaction, walletId: nat, kind: T.TxType): int
  {
    if t.walletId == walletId && t.status == T.Completed && t.kind == kind then t.amount else 0
  }

  /** Sum of the amounts of the COMPLETED transactions of `kind` recorded for wallet `walletId`. */
  function Total(txs: seq<T.Transaction>, walletId: nat, kind: T.TxType): int
  {
    if txs == [] then 0
    else Contribution(txs[0], walletId, kind) + Total(txs[1..], walletId, kind)
  }

  /** Completed deposits minus completed withdrawals of wallet `walletId`. */
  function Net(txs: seq<T.Transaction>, walletId: nat): int
  {
    Total(txs, walletId, T.Deposit) - Total(txs, walletId, T.Withdrawal)
  }

  /** Every wallet's balance is what its completed transactions add up to. */
  predicate Reconciled(ws: seq<W.Wallet>, txs: seq<T.Transaction>)
  {
    forall i :: 0 <= i < |ws| ==> ws[i].balance == Net(txs, ws[i].id)
  }

  /** The balance a wallet should have once `t` is applied to it. */
  function Posted(balance: int, t: T.Transaction): int
  {
    if t.kind == T.Deposit then balance + t.amount else balance - t.amount
  }

  /** Appending a row adds exactly its own contribution to a total. */
  lemma {:induction false} TotalAppend(txs: seq<T.Transaction>, t: T.Transaction, walletId: nat, kind: T.TxType)
    ensures Total(txs + [t], walletId, kind) == Total(txs, walletId, kind) + Contribution(t, walletId, kind)
  {
    if txs == [] {
      assert [t][1..] == [];
    } else {
      assert (txs + [t])[1..] == txs[1..] + [t];
      TotalAppend(txs[1..], t, walletId, kind);
    }
  }

  /** A wallet no row refers to has every total 0. */
  lemma {:induction false} TotalOfUnreferenced(txs: seq<T.Transaction>, walletId: nat, kind: T.TxType)
    requires forall i :: 0 <= i < |txs| ==> txs[i].walletId != walletId
    ensures Total(txs, walletId, kind) == 0
  {
    if txs != [] {
      TotalOfUnreferenced(txs[1..], walletId, kind);
    }
  }

  /**
   * Recording a completed transaction against wallet `k` and moving that
   * wallet's balance by its amount keeps every wallet reconciled.
   */
  lemma PostingKeepsReconciled(ws: seq<W.Wallet>, txs: seq<T.Transaction>, k: nat, t: T.Transaction)
    requires Reconciled(ws, txs) && DistinctWalletIds(ws)
    requires k < |ws| && t.walletId == ws[k].id && t.status == T.Completed
    ensures Reconciled(ws[k := ws[k].(balance := Posted(ws[k].balance, t))], txs + [t])
  {
    var ws' := ws[k := ws[k].(balance := Posted(ws[k].balance, t))];
    forall i | 0 <= i < |ws'|
      ensures ws'[i].balance == Net(txs + [t], ws'[i].id)
    {
      TotalAppend(txs, t, ws[i].id, T.Deposit);
      TotalAppend(txs, t, ws[i].id, T.Withdrawal);
    }
  }

  /**
   * Recording a completed, non-zero transaction without moving the balance
   * (the record is inserted, the wallet save fails) leaves the ledger unreconciled.
   */
  lemma RecordWithoutBalanceUnreconciles(ws: seq<W.Wallet>, txs: seq<T.Transaction>, k: nat, t: T.Transaction)
    requires Reconciled(ws, txs)
    requires k < |ws| && t.walletId == ws[k].id && t.status == T.Completed && t.amount != 0
    ensures !Reconciled(ws, txs + [t])
  {
    TotalAppend(txs, t, ws[k].id, T.Deposit);
    TotalAppend(txs, t, ws[k].id, T.Withdrawal);
  }

  /** A new wallet at 0 that no row refers to joins a reconciled ledger reconciled. */
  lemma OpeningKeepsReconciled(ws: seq<W.Wallet>, txs: seq<T.Transaction>, w: W.Wallet)
    requires Reconciled(ws, txs) && w.balance == 0
    requires forall i :: 0 <= i < |txs| ==> txs[i].walletId != w.id
    ensures Reconciled(ws + [w], txs)
  {
    TotalOfUnreferenced(txs, w.id, T.Deposit);
    TotalOfUnreferenced(txs, w.id, T.Withdrawal);
    assert forall i :: 0 <= i < |ws| ==> (ws + [w])[i] == ws[i];
  }

  /**
   * `Transaction.findAll({ where: { walletId }, order: [['createdAt', 'DESC']] })`
   * on a table kept in creation order: the wallet's rows, last inserted first.
   */
  function History(txs: seq<T.Transaction>, walletId: nat): seq<T.Transaction>
  {
    if txs == [] then []
    else History(txs[1..], walletId) + (if txs[0].walletId == walletId then [txs[0]] else [])
  }

  /** The history holds exactly the rows of the table that belong to the wallet. */
  lemma {:induction false} HistoryMembers(txs: seq<T.Transaction>, walletId: nat)
    ensures forall t :: t in History(txs, walletId) <==> t in txs && t.walletId == walletId
  {
    if txs != [] {
      HistoryMembers(txs[1..], walletId);
      assert txs == [txs[0]] + txs[1..];
    }
  }

  /** On a table kept in creation order, the history is strictly newest first. */
  lemma {:induction false} HistoryNewestFirst(txs: seq<T.Transaction>, walletId: nat)
    requires CreatedInOrder(txs)
    ensures forall i, j :: 0 <= i < j < |History(txs, walletId)| ==>
              History(txs, walletId)[i].createdAt > History(txs, walletId)[j].createdAt
  {
    if txs != [] {
      var rest := History(txs[1..], walletId);
      HistoryNewestFirst(txs[1..], walletId);
      HistoryMembers(txs[1..], walletId);
      forall x | x in rest
        ensures x.createdAt > txs[0].createdAt
      {
        var m :| 0 <= m < |txs[1..]| && txs[1..][m] == x;
        assert txs[m + 1] == x;
      }
    }
  }
}

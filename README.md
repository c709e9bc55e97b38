# Wallet ledger model

A Dafny model of the wallet ledger of a small Express/Sequelize wallet
service with PayPal funding. The model covers the five request handlers of
`src/controllers/WalletController.js` and the two tables they write,
`Wallet` (`src/models/Wallet.js`) and `Transaction`
(`src/models/transaction.js`). With the database and the PayPal SDK taken
out, the controller becomes a state machine over two tables:

- `withdraw` refuses with "Insufficient funds" when the balance is below
  the amount. Otherwise it inserts a COMPLETED WITHDRAWAL row and then saves
  the wallet with the balance lowered by the amount.
- `fundWallet` takes what the provider reports for a capture, an id and an
  amount. It inserts a COMPLETED DEPOSIT row carrying that id and then saves
  the wallet with the balance raised by the amount.
- `getBalance` reads the balance of the caller's wallet.
- `getTransactionHistory` lists the wallet's rows, newest first.
- `createPayPalOrder` only talks to the provider and never touches the tables.

Files and modules:

- `wrappers.dfy` (`Wrappers`): `Option` and `Result`.
- `schema.dfy` (`Schema`): the DECIMAL(10,2) and VARCHAR(255) columns and
  the ways a row is refused. Money is a whole number of cents. Two fractional
  digits are then exact, and ten digits of precision bound a column at
  99,999,999.99. A Sequelize `STRING` column is VARCHAR(255), so it holds at
  most 255 characters.
- `wallet.dfy` (`WalletModel`): the Wallet row, its validity (balance at
  least 0 and within DECIMAL(10,2)), `Wallet.create` with the default balance
  0, and the balance update done by `wallet.save()`.
- `transaction.dfy` (`TransactionModel`): the Transaction row, the two ENUMs
  and their labels, and `Transaction.create` with the PENDING default.
- `ledger_spec.dfy` (`LedgerSpec`): the meaning of the tables as values. It
  defines which wallet `findOne` reaches, the total of completed deposits and
  withdrawals per wallet, the reconciliation invariant, and the newest-first
  history, with the lemmas that connect them.
- `wallet_controller.dfy` (`WalletController`): class `Ledger`. It holds
  the two tables as fields that its methods reassign, plus a logical clock
  `tick`. Its invariant `Valid()` states distinct primary keys, foreign keys
  that name a stored wallet, rows that pass their schema, and rows kept in
  creation order.
- `scenarios.dfy` (`Scenarios`): request sequences proved from the
  controller's contracts alone. One shows a refused withdrawal from an empty
  wallet. Another funds 100.00, withdraws 40.00, leaves 60.00 and lists the
  withdrawal first. An exact emptying leaves 0.00. A capture id reported twice
  is credited twice. A negative withdrawal raises the balance.

Behaviour of the code that the model keeps as written:

- The record insert and the wallet save are two separate writes, and nothing
  undoes the first when the second fails. The model returns
  `SaveRejected` with the record kept. `RecordWithoutBalanceUnreconciles`
  shows that this leaves the ledger unreconciled. So the balance invariant is
  promised after every outcome except that one.
- A save fails when the new balance is negative (the `min: 0` validator) or
  does not fit DECIMAL(10,2). The model assumes MySQL strict mode, which
  refuses out-of-range values and over-long texts instead of clipping or
  truncating them. So a capture id longer than 255 characters makes the
  DEPOSIT insert fail, and the wallet is not credited.
- `withdraw` does not check that the amount is positive. A negative amount
  passes the balance check and credits the wallet.
- `fundWallet` does not deduplicate capture ids. A capture reported twice is
  credited twice.
- `fundWallet` reads the wallet with `findOne` (line 46) before the capture
  (lines 48-49), but dereferences it only at line 54, after the capture. A
  capture for a user without a wallet is therefore taken by the provider
  before the handler fails, and it is never credited.
- A handler whose `findOne` finds no wallet dereferences null and answers
  500. The model reports this as `WalletNotFound`.

What the code does not do, and so the model does not promise:

- `fundWallet` and `withdraw` write the record and the balance separately
  (WalletController.js:53-63 and 84-93), with no transaction around them.
- `createPayPalOrder` (WalletController.js:19-41) records no row.
- `fundWallet` never looks for an existing row with the same
  `paypalTransactionId`.
- `withdraw` (WalletController.js:80) never tests that the amount is positive.

The primary keys, and the columns declared `allowNull: false` (walletId,
owner, balance, kind, amount), are plain fields of the row datatypes, so they
can never be null. The nullable
PayPal reference and description are `Option` fields.

## Model

| member | source | states |
|---|---|---|
| `Schema.FitsDecimalMeansTenDigits` | src/models/Wallet.js:19 | a cent amount fits DECIMAL(10,2) exactly when it has at most ten digits, so every stored amount lies within ±99,999,999.99 |
| `WalletModel.CheckBalance` | src/models/Wallet.js:18-24 | a balance passes the column's checks exactly when it is at least 0 and fits DECIMAL(10,2) |
| `WalletModel.Create` | src/models/Wallet.js:4-26 | creation succeeds exactly when the owner is given and the balance, if given, is valid; the row is valid, keeps its id and owner, and its balance defaults to 0 |
| `WalletModel.NewWalletIsEmpty` | src/models/Wallet.js:18-20 | a wallet created with only its owner holds 0 |
| `WalletModel.SetBalance` | src/models/Wallet.js:22-24 | saving a new balance succeeds exactly when it is at least 0 and fits the column, and changes nothing but the balance; a negative balance is refused by the `min: 0` validator |
| `TransactionModel.ParseType` | src/models/transaction.js:19-22 | a kind label is accepted exactly when it is DEPOSIT or WITHDRAWAL, and reads back as the kind it names |
| `TransactionModel.ParseStatus` | src/models/transaction.js:27-30 | a status label is accepted exactly when it is PENDING, COMPLETED or FAILED, and reads back as the status it names |
| `TransactionModel.LabelsRoundTrip` | src/models/transaction.js:19-30 | every kind and status label parses back to the value it was written from |
| `TransactionModel.Create` | src/models/transaction.js:5-39 | creation succeeds exactly when wallet, kind and amount are present, the labels are ENUM members, the amount fits DECIMAL(10,2) and the PayPal reference and description, when given, fit VARCHAR(255); the row is valid, copies every attribute, leaves the optional reference and description as given, and has status PENDING when none is given |
| `LedgerSpec.FindWallet` | src/controllers/WalletController.js:11 | the lookup by user finds a wallet owned by the user, the earliest one, or reports that the user owns none |
| `LedgerSpec.TotalAppend` | src/controllers/WalletController.js:53-60 | inserting a row adds exactly its own amount to the completed total of its wallet and kind, and nothing to any other |
| `LedgerSpec.TotalOfUnreferenced` | src/models/transaction.js:11-18 | a wallet that no row refers to has completed totals of 0 |
| `LedgerSpec.PostingKeepsReconciled` | src/controllers/WalletController.js:84-93 | recording a completed row for a wallet and moving that wallet's balance by its amount keeps every balance equal to completed deposits minus completed withdrawals |
| `LedgerSpec.RecordWithoutBalanceUnreconciles` | src/controllers/WalletController.js:53-63 | a completed non-zero row whose balance save fails leaves its wallet unreconciled |
| `LedgerSpec.OpeningKeepsReconciled` | src/models/Wallet.js:18-20 | a new wallet at 0 that no row refers to keeps the ledger reconciled |
| `LedgerSpec.HistoryMembers` | src/controllers/WalletController.js:108-110 | the history holds exactly the table's rows whose walletId is the wallet's id |
| `LedgerSpec.HistoryNewestFirst` | src/controllers/WalletController.js:110 | on a table kept in creation order the history is strictly decreasing in creation time |
| `WalletController.WithdrawalRow` | src/controllers/WalletController.js:84-90 | the attributes `withdraw` passes give a COMPLETED WITHDRAWAL of the requested amount with the bank-account description and no PayPal reference, or are refused when the amount does not fit the column |
| `WalletController.DepositRow` | src/controllers/WalletController.js:53-60 | the attributes `fundWallet` passes give a COMPLETED DEPOSIT of the captured amount whose PayPal reference is the capture id, or are refused when the amount does not fit DECIMAL(10,2) or the capture id is longer than 255 characters |
| `WalletController.Ledger.OpenWallet` | src/models/Wallet.js:4-26 | a new wallet for the user holds 0, takes a primary key no stored wallet has, is appended to the table, and keeps the ledger valid and reconciled |
| `WalletController.Ledger.GetBalance` | src/controllers/WalletController.js:9-17 | returns the balance of the user's wallet, which lies in 0..99,999,999.99 and equals completed deposits minus completed withdrawals when the ledger is reconciled, or WalletNotFound; it changes no state |
| `WalletController.Ledger.CreatePayPalOrder` | src/controllers/WalletController.js:19-41 | returns the provider's order id or ProviderFailed, and changes no state |
| `WalletController.Ledger.Fund` | src/controllers/WalletController.js:43-73 | a provider failure and a missing wallet change nothing; otherwise exactly one DEPOSIT row is appended and the balance rises by exactly the captured amount, or the row is refused and nothing changes when the amount does not fit DECIMAL(10,2) or the capture id is longer than 255 characters, or the save fails after the row is kept; the ledger stays valid and stays reconciled except after a failed save |
| `WalletController.Ledger.Withdraw` | src/controllers/WalletController.js:75-103 | a missing wallet or an amount above the balance changes nothing; an amount equal to the balance leaves exactly 0; otherwise exactly one WITHDRAWAL row is appended and the balance falls by exactly the amount and stays at least 0, unless the row is refused or the save fails as in Fund; the ledger stays valid and stays reconciled except after a failed save |
| `WalletController.Ledger.Commit` | src/controllers/WalletController.js:84-93 | inserts the record with a fresh key, then saves the moved balance; the save succeeds exactly when the balance is valid, and a failed save keeps the record and leaves the wallets as they were |
| `WalletController.Ledger.Insert` | src/models/transaction.js:5-18 | appending a valid row stamped with the clock keeps primary keys distinct, the foreign key pointing at a stored wallet and the table in creation order |
| `WalletController.Ledger.Store` | src/controllers/WalletController.js:62-63 | writing back a valid wallet row with the same id changes only that row and keeps the store valid |
| `WalletController.Ledger.GetTransactionHistory` | src/controllers/WalletController.js:105-118 | returns exactly the user's wallet's rows, strictly newest first, or WalletNotFound; it changes no state |

## Left out

- HTTP routing, authentication, Swagger documentation and server start-up
  have no ledger logic. The authenticated user id is a parameter.
- Database bootstrap and connection are I/O, and so are the database calls
  themselves. The tables are fields of `Ledger`.
- WalletModel.Create: the foreign key from `userId` to the Users table
  (Wallet.js:13-16) is not modelled, because users are not part of the
  model. Every user id is taken to name an existing user, so a create that
  the database would refuse for an unknown user succeeds in the model.
- User registration and login are left out. The wallet creation in the
  registration handler is a bare database call in a file that never imports
  `Wallet`. `OpenWallet` models only the schema's creation of a wallet.
- The PayPal SDK calls are external. The order reply is an optional order
  id, and the capture reply is an optional (id, amount in cents) pair. None
  stands for a call that threw. The order request body (intent CAPTURE,
  currency USD) is not modelled.
- The `parseFloat` arithmetic is floating point. Amounts are exact integer
  cents, following the DECIMAL(10,2) columns. Inputs with more than two
  decimals and non-numeric inputs are not modelled.
- Concurrent requests on one wallet (lost updates) are not modelled. Every
  request runs to completion before the next starts.
- UUIDv4 primary keys and `createdAt` timestamps both come from one logical
  clock that advances on every insert. Keys are therefore distinct and
  creation times strictly increase. Ties between equal timestamps, which the
  database may list in any order, are not modelled.
- `findOne` without an order may return any matching row. The model returns
  the earliest-created wallet of the user.
- A status given explicitly as null is not modelled. The column allows it,
  but an absent status is modelled as taking the PENDING default.
- A wallet balance given explicitly as null is not modelled either. The
  column is declared `allowNull: false` (Wallet.js:21), so Sequelize
  refuses it with a not-null validation error, but an absent balance is modelled as
  taking the default 0. No handler passes either null.
- Logging, `updatedAt` timestamps and HTTP status codes are not modelled,
  beyond telling InsufficientFunds (400) apart from the other failures (500).

/**
 * The Transaction table: one row per balance-affecting event, each owned by a
 * wallet, with a closed kind, a status that defaults to PENDING and a
 * DECIMAL(10,2) amount.
 */
module TransactionModel {
  import opened Wrappers
  import opened Schema

  datatype TxType = Deposit | Withdrawal

  datatype TxStatus = Pending | Completed | Failed

  /** The ENUM label stored for a kind. */
  function TypeLabel(k: TxType): string
  {
    match k
    case Deposit => "DEPOSIT"
    case Withdrawal => "WITHDRAWAL"
  }

  /** The kind an ENUM label names, if it names one. */
  function ParseType(s: string): (r: Option<TxType>)
    ensures r.Some? ==> TypeLabel(r.value) == s
    ensures r.None? ==> forall k :: TypeLabel(k) != s
  {
    if s == "DEPOSIT" then Some(Deposit)
    else if s == "WITHDRAWAL" then Some(Withdrawal)
    else None
  }

  /** The ENUM label stored for a status. */
  function StatusLabel(s: TxStatus): string
  {
    match s
    case Pending => "PENDING"
    case Completed => "COMPLETED"
    case Failed => "FAILED"
  }

  /** The status an ENUM label names, if it names one. */
  function ParseStatus(s: string): (r: Option<TxStatus>)
    ensures r.Some? ==> StatusLabel(r.value) == s
    ensures r.None? ==> forall st :: StatusLabel(st) != s
  {
    if s == "PENDING" then Some(Pending)
    else if s == "COMPLETED" then Some(Completed)
    else if s == "FAILED" then Some(Failed)
    else None
  }

  /** Each label reads back as the value it was written from. */
  lemma LabelsRoundTrip(k: TxType, st: TxStatus)
    ensures ParseType(TypeLabel(k)) == Some(k)
    ensures ParseStatus(StatusLabel(st)) == Some(st)
  {
  }

  /**
   * A stored transaction. `id` is the primary key and `walletId` the owning
   * wallet, both required; `amount` is in cents; the PayPal reference and the
   * description are nullable columns. `createdAt` is the creation timestamp.
   */
  datatype Transaction = Transaction(
    id: nat,
    walletId: nat,
    kind: TxType,
    amount: int,
    status: TxStatus,
    paypalTransactionId: Option<string>,
    description: Option<string>,
    createdAt: nat)

  /** A nullable STRING column holds null or a text of at most 255 characters. */
  predicate FitsOptionalVarchar(s: Option<string>)
  {
    s.None? || FitsVarchar(s.value)
  }

  /**
   * What the schema admits for a stored row beyond its types: a DECIMAL(10,2)
   * amount and VARCHAR(255) texts.
   */
  predicate Valid(t: Transaction)
  {
    FitsDecimal(t.amount) && FitsOptionalVarchar(t.paypalTransactionId) && FitsOptionalVarchar(t.description)
  }

  /** The attributes passed to `Transaction.create`; kind and status are ENUM labels. */
  datatype Attrs = Attrs(
    walletId: Option<nat>,
    kind: Option<string>,
    amount: Option<int>,
    status: Option<string>,
    paypalTransactionId: Option<string>,
    description: Option<string>)

  /**
   * `Transaction.create(attrs)` with primary key `id` and timestamp `createdAt`:
   * wallet, kind and amount are required, labels must be ENUM members, the
   * amount and the texts must fit their columns, and an absent status becomes
   * PENDING.
   */
  function Create(id: nat, createdAt: nat, a: Attrs): (r: Result<Transaction, SchemaError>)
    ensures r.Ok? <==>
      && a.walletId.Some? && a.kind.Some? && a.amount.Some?
      && ParseType(a.kind.value).Some?
      && (a.status.None? || ParseStatus(a.status.value).Some?)
      && FitsDecimal(a.amount.value)
      && FitsOptionalVarchar(a.paypalTransactionId)
      && FitsOptionalVarchar(a.description)
    ensures r.Ok? ==> Valid(r.value)
    ensures r.Ok? ==>
      && r.value.id == id && r.value.createdAt == createdAt
      && r.value.walletId == a.walletId.value
      && TypeLabel(r.value.kind) == a.kind.value
      && r.value.amount == a.amount.value
      && StatusLabel(r.value.status) == (if a.status.Some? then a.status.value else "PENDING")
      && r.value.paypalTransactionId == a.paypalTransactionId
      && r.value.description == a.description
  {
    if a.walletId.None? then Err(NotNull("walletId"))
    else if a.kind.None? then Err(NotNull("type"))
    else if a.amount.None? then Err(NotNull("amount"))
    else if ParseType(a.kind.value).None? then Err(NotInEnum("type"))
    else if a.status.Some? && ParseStatus(a.status.value).None? then Err(NotInEnum("status"))
    else if !FitsDecimal(a.amount.value) then Err(OutOfRange("amount"))
    else if !FitsOptionalVarchar(a.paypalTransactionId) then Err(TooLong("paypalTransactionId"))
    else if !FitsOptionalVarchar(a.description) then Err(TooLong("description"))
    else
      var status := if a.status.Some? then ParseStatus(a.status.value).value else Pending;
      Ok(Transaction(id, a.walletId.value, ParseType(a.kind.value).value, a.amount.value,
                     status, a.paypalTransactionId, a.description, createdAt))
  }
}

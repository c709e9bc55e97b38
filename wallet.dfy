/**
 * The Wallet table: one row per wallet, owned by one user, holding a
 * non-negative DECIMAL(10,2) balance that starts at 0.
 */
module WalletModel {
  import opened Wrappers
  import opened Schema

  /**
   * A stored wallet. `id` is the primary key and `userId` the owning user;
   * both are `allowNull: false`, so neither is optional here. `balance` is in cents.
   */
  datatype Wallet = Wallet(id: nat, userId: nat, balance: int)

  /** What the schema admits for a stored row: the `min: 0` validator and the DECIMAL(10,2) column. */
  predicate Valid(w: Wallet)
  {
    0 <= w.balance && FitsDecimal(w.balance)
  }

  /** The attributes passed to `Wallet.create`; an absent one is left to its default. */
  datatype Attrs = Attrs(userId: Option<nat>, balance: Option<int>)

  /** The checks a balance value goes through before it is stored. */
  function CheckBalance(balance: int): (r: Option<SchemaError>)
    ensures r.None? <==> 0 <= balance && FitsDecimal(balance)
  {
    if balance < 0 then Some(BelowMinimum("balance"))
    else if !FitsDecimal(balance) then Some(OutOfRange("balance"))
    else None
  }

  /**
   * `Wallet.create(attrs)` with primary key `id`: the owner is required,
   * the balance defaults to 0 and must pass the column's checks.
   */
  function Create(id: nat, a: Attrs): (r: Result<Wallet, SchemaError>)
    ensures r.Ok? <==> a.userId.Some? && (a.balance.None? || (0 <= a.balance.value && FitsDecimal(a.balance.value)))
    ensures r.Ok? ==> Valid(r.value) && r.value.id == id && r.value.userId == a.userId.value
    ensures r.Ok? && a.balance.None? ==> r.value.balance == 0
    ensures r.Ok? && a.balance.Some? ==> r.value.balance == a.balance.value
  {
    if a.userId.None? then Err(NotNull("userId"))
    else
      var balance := if a.balance.Some? then a.balance.value else 0;
      match CheckBalance(balance)
      case Some(e) => Err(e)
      case None => Ok(Wallet(id, a.userId.value, balance))
  }

  /**
   * `wallet.balance = balance; wallet.save()`: the row keeps its id and owner,
   * and the new balance is stored only if it passes the column's checks.
   */
  function SetBalance(w: Wallet, balance: int): (r: Result<Wallet, SchemaError>)
    ensures r.Ok? <==> 0 <= balance && FitsDecimal(balance)
    ensures r.Ok? ==> Valid(r.value) && r.value.balance == balance
    ensures r.Ok? ==> r.value == w.(balance := balance)
    ensures balance < 0 ==> r == Err(BelowMinimum("balance"))
  {
    match CheckBalance(balance)
    case Some(e) => Err(e)
    case None => Ok(w.(balance := balance))
  }

  /** A wallet created with no balance given starts valid, at 0. */
  lemma NewWalletIsEmpty(id: nat, userId: nat)
    ensures Create(id, Attrs(Some(userId), None)) == Ok(Wallet(id, userId, 0))
  {
  }
}

/**
 * What the two tables share: the DECIMAL(10,2) column type and the ways a row
 * can be refused on its way into the database.
 *
 * Money is held as a whole number of cents. Two fractional digits are then
 * exact by construction, and the precision of ten digits bounds the number
 * of cents a column can hold.
 */
module Schema {

  /** Why a row is refused: by a Sequelize validator or by the column type itself. */
  datatype SchemaError =
    | NotNull(field: string)        // `allowNull: false` and no value
    | NotInEnum(field: string)      // a label outside the ENUM
    | BelowMinimum(field: string)   // the `min: 0` validator
    | OutOfRange(field: string)     // more digits than DECIMAL(10,2) holds
    | TooLong(field: string)        // more characters than VARCHAR(255) holds

  /** Total number of decimal digits of a DECIMAL(10,2) column. */
  const Precision: nat := 10

  /** 99,999,999.99 in cents: the largest magnitude a DECIMAL(10,2) column holds. */
  const MaxCents: int := 9_999_999_999

  /** A cent amount that a DECIMAL(10,2) column can store. */
  predicate FitsDecimal(cents: int)
  {
    -MaxCents <= cents <= MaxCents
  }

  /** Length of a STRING column, which Sequelize declares as VARCHAR(255). */
  const MaxVarchar: nat := 255

  /** A text that a VARCHAR(255) column can store. */
  predicate FitsVarchar(s: string)
  {
    |s| <= MaxVarchar
  }

  function Abs(x: int): nat
  {
    if x < 0 then -x else x
  }

  /** Number of decimal digits of `n` (0 has one digit). */
  function Digits(n: nat): (d: nat)
    ensures d >= 1
  {
    if n < 10 then 1 else 1 + Digits(n / 10)
  }

  function Pow10(k: nat): (p: nat)
    ensures p >= 1
  {
    if k == 0 then 1 else 10 * Pow10(k - 1)
  }

  /** `n` is written with at most `k` digits exactly when it is below 10^k. */
  lemma {:induction false} DigitsBelow(n: nat, k: nat)
    requires k >= 1
    ensures Digits(n) <= k <==> n < Pow10(k)
  {
    if n < 10 {
      assert Pow10(k) == 10 * Pow10(k - 1) >= 10;
    } else if k == 1 {
      assert Digits(n) == 1 + Digits(n / 10) >= 2;
      assert Pow10(1) == 10;
    } else {
      DigitsBelow(n / 10, k - 1);
      var p := Pow10(k - 1);
      assert Pow10(k) == 10 * p;
      assert n == 10 * (n / 10) + n % 10 && 0 <= n % 10 < 10;
      if n / 10 < p {
        assert n / 10 <= p - 1;
        assert 10 * (n / 10) <= 10 * (p - 1);
      } else {
        assert 10 * (n / 10) >= 10 * p;
      }
    }
  }

  /** The range test FitsDecimal is exactly "at most ten digits of cents". */
  lemma FitsDecimalMeansTenDigits(cents: int)
    ensures FitsDecimal(cents) <==> Digits(Abs(cents)) <= Precision
  {
    DigitsBelow(Abs(cents), Precision);
    assert Pow10(Precision) == MaxCents + 1 by {
      assert Pow10(2) == 100;
      assert Pow10(4) == 10_000;
      assert Pow10(6) == 1_000_000;
      assert Pow10(8) == 100_000_000;
    }
  }
}
